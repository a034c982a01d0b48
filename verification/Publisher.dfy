/** The publisher: its configuration, its backoff, and one round over a leased batch. */
module Publisher {
  import opened Domain
  import opened Outbox
  import opened OutboxProtocol

  /** A signed 64-bit duration in nanoseconds. */
  newtype Duration = x: int | -0x8000_0000_0000_0000 <= x < 0x8000_0000_0000_0000

  datatype Config = Config(
    publisherId: string,
    batchSize: int,
    leaseTTL: Duration,
    pollInterval: Duration,
    publishTimeout: Duration,
    baseBackoff: Duration,
    maxBackoff: Duration)

  predicate ValidConfig(config: Config) {
    && config.publisherId != "" && 0 < config.batchSize
    && 0 < config.publishTimeout < config.leaseTTL && 0 < config.pollInterval
    && 0 < config.baseBackoff <= config.maxBackoff
  }

  function Pow2(n: nat): (r: nat)
    ensures 1 <= r
  {
    if n == 0 then 1 else 2 * Pow2(n - 1)
  }

  function Doubled(base: nat, n: nat): nat {
    if n == 0 then base else 2 * Doubled(base, n - 1)
  }

  lemma {:induction false} DoubledIsScaled(base: nat, n: nat)
    ensures Doubled(base, n) == base * Pow2(n)
  {
    if n > 0 {
      DoubledIsScaled(base, n - 1);
      assert base * (2 * Pow2(n - 1)) == 2 * (base * Pow2(n - 1));
    }
  }

  lemma {:induction false} DoubledGrows(base: nat, m: nat, n: nat)
    requires m <= n
    ensures Doubled(base, m) <= Doubled(base, n)
  {
    if m < n {
      DoubledGrows(base, m, n - 1);
    }
  }

  function Min(a: int, b: int): int {
    if a < b then a else b
  }

  /** The delay before the next attempt: doubled with every attempt, and capped. */
  function Delay(config: Config, attempt: int): int
    requires ValidConfig(config)
  {
    Min(Doubled(config.baseBackoff as int, if attempt < 1 then 0 else attempt - 1), config.maxBackoff as int)
  }

  /** In closed form: the base times a power of two, capped; it grows with the attempt and stays in its bounds. */
  lemma DelayExact(config: Config, attempt: int, later: int)
    requires ValidConfig(config) && attempt <= later
    ensures Delay(config, attempt) ==
            Min(config.baseBackoff as int * Pow2(if attempt < 1 then 0 else attempt - 1), config.maxBackoff as int)
    ensures config.baseBackoff as int <= Delay(config, attempt) <= Delay(config, later) <= config.maxBackoff as int
  {
    var base, m, n := config.baseBackoff as int, if attempt < 1 then 0 else attempt - 1, if later < 1 then 0 else later - 1;
    DoubledIsScaled(base, m);
    DoubledGrows(base, 0, m);
    DoubledGrows(base, m, n);
  }

  /** The doubling loop is exact and never leaves 64 bits. */
  method Backoff(config: Config, attempt: int) returns (delay: Duration)
    requires ValidConfig(config)
    ensures delay as int == Delay(config, attempt)
  {
    var n := if attempt < 1 then 1 else attempt;
    delay := config.baseBackoff;
    var index := 1;
    while index < n && delay < config.maxBackoff
      invariant 1 <= index <= n
      invariant delay as int == Doubled(config.baseBackoff as int, index - 1)
      invariant delay <= config.maxBackoff
      decreases n - index
    {
      if delay > config.maxBackoff / 2 {
        DoubledGrows(config.baseBackoff as int, index, n - 1);
        return config.maxBackoff;
      }
      delay := delay * 2;
      index := index + 1;
    }
    DoubledGrows(config.baseBackoff as int, index - 1, n - 1);
    if delay > config.maxBackoff {
      return config.maxBackoff;
    }
  }

  // One round

  datatype Failure = PublishFailed(id: nat, error: string, rescheduled: bool) | MarkFailed(id: nat)

  /** What a round makes of a row it leased: published, rescheduled, or left to its expired lease. */
  function Concluded(config: Config, row: OutboxRow, outcome: Option<string>, now: Time): OutboxRow
    requires ValidConfig(config)
  {
    match outcome
    case Some(error) => RetriedRow(row, now + Delay(config, row.attempts), error)
    case None => if row.leaseUntil.Some? && now < row.leaseUntil.value then PublishedRow(row, now) else row
  }

  /** The failures of the first n messages. */
  function Failures(messages: seq<Message>, outcome: nat -> Option<string>, clock: nat -> Time, n: nat): seq<Failure>
    requires n <= |messages|
  {
    if n == 0 then []
    else
      var m := messages[n - 1];
      Failures(messages, outcome, clock, n - 1) +
      match outcome(n - 1)
      case Some(error) => [PublishFailed(m.id, error, true)]
      case None => if clock(n) < m.leaseUntil then [] else [MarkFailed(m.id)]
  }

  /** With ids that differ, an update under an id concerns one row. */
  lemma OneRow(rows: seq<OutboxRow>, i: nat, publisher: string, token: nat, now: Time, error: string)
    requires Numbered(rows) && i < |rows|
    ensures Published(rows, rows[i].id, publisher, token, now) ==
            rows[i := if Publishable(rows[i], rows[i].id, publisher, token, now) then PublishedRow(rows[i], now) else rows[i]]
    ensures Retried(rows, rows[i].id, publisher, token, now, error) ==
            rows[i := if Answers(rows[i], rows[i].id, publisher, token) then RetriedRow(rows[i], now, error) else rows[i]]
  {
  }

  /** The table once the first n messages of a batch have been settled. */
  function Round(config: Config, rows: seq<OutboxRow>, chosen: seq<nat>, outcome: nat -> Option<string>, clock: nat -> Time, n: nat)
    : (r: seq<OutboxRow>)
    requires ValidConfig(config) && n <= |chosen| && forall k :: 0 <= k < |chosen| ==> chosen[k] < |rows|
    ensures |r| == |rows|
    ensures forall i :: 0 <= i < |rows| ==> r[i].id == rows[i].id
  {
    if n == 0 then rows
    else
      var before := Round(config, rows, chosen, outcome, clock, n - 1);
      var i := chosen[n - 1];
      before[i := Concluded(config, before[i], outcome(n - 1), clock(n))]
  }

  predicate Distinct(chosen: seq<nat>) {
    forall j, k :: 0 <= j < k < |chosen| ==> chosen[j] != chosen[k]
  }

  /** Each row of the batch is concluded once, by its own message, and no other row changes. */
  lemma {:induction false} RoundConcludes(config: Config, rows: seq<OutboxRow>, chosen: seq<nat>, outcome: nat -> Option<string>,
                                          clock: nat -> Time, n: nat, i: nat)
    requires ValidConfig(config) && n <= |chosen| && Distinct(chosen) && i < |rows|
    requires forall k :: 0 <= k < |chosen| ==> chosen[k] < |rows|
    ensures var r := Round(config, rows, chosen, outcome, clock, n);
            && (forall k :: 0 <= k < n && chosen[k] == i ==> r[i] == Concluded(config, rows[i], outcome(k), clock(k + 1)))
            && ((forall k :: 0 <= k < n ==> chosen[k] != i) ==> r[i] == rows[i])
  {
    if n > 0 {
      RoundConcludes(config, rows, chosen, outcome, clock, n - 1, i);
    }
  }

  /** Leasing leaves each chosen row held by the publisher, in distinct places. */
  lemma LeasedBatch(rows: seq<OutboxRow>, chosen: seq<nat>, messages: seq<Message>, publisher: string, now: Time, ttl: int, limit: int)
    requires Numbered(rows) && IsBatch(rows, chosen, now, limit) && Describes(messages, rows, chosen, publisher, now, ttl)
    ensures var leased := Leased(rows, chosen, publisher, now, ttl);
            && Numbered(leased)
            && (forall k :: 0 <= k < |chosen| ==> chosen[k] < |leased| && Holds(leased[chosen[k]], messages[k], publisher) && 1 <= messages[k].leaseToken)
            && Distinct(chosen)
  {
    LeasedNumbered(rows, chosen, publisher, now, ttl);
  }

  /** The row is leased to the publisher as the message says. */
  predicate Holds(row: OutboxRow, m: Message, publisher: string) {
    && Answers(row, m.id, publisher, m.leaseToken)
    && row.leaseUntil == Some(m.leaseUntil)
    && row.attempts == m.attempts
  }

  /** What no round changes. */
  predicate SameAnnouncement(row: OutboxRow, row': OutboxRow) {
    && row'.id == row.id && row'.aggregateType == row.aggregateType && row'.aggregateId == row.aggregateId
    && row'.eventType == row.eventType && row'.payload == row.payload && row'.createdAt == row.createdAt
  }

  /** The delay after so many failed attempts: the base doubled with each but the first, up to the maximum. */
  function Wait(config: Config, attempts: nat): int {
    var doubled := config.baseBackoff as int * Pow2(if attempts > 1 then attempts - 1 else 0);
    if doubled < config.maxBackoff as int then doubled else config.maxBackoff as int
  }

  /** A row that failed at a time waits its backoff out, keeps the error and its token, and is nobody's. */
  ghost predicate Rescheduled(config: Config, row: OutboxRow, row': OutboxRow, error: string, failedAt: Time) {
    && SameAnnouncement(row, row')
    && row'.attempts == row.attempts + 1 && row'.leaseToken == row.leaseToken + 1
    && row'.lastError == Some(error) && row'.publishedAt == None
    && row'.leaseOwner == None && row'.leaseUntil == None
    && row'.nextAttemptAt == failedAt + Wait(config, row.attempts + 1)
    && (forall t :: Due(row', t) <==> failedAt + Wait(config, row.attempts + 1) <= t)
  }

  ghost predicate Delivered(row: OutboxRow, row': OutboxRow, at: Time) {
    && SameAnnouncement(row, row')
    && row'.attempts == row.attempts + 1 && row'.leaseToken == row.leaseToken + 1
    && row'.lastError == None && row'.publishedAt == Some(at)
    && row'.leaseOwner == None && row'.leaseUntil == None
    && row'.nextAttemptAt == row.nextAttemptAt
    && (forall t :: !Due(row', t))
  }

  /** A row that was delivered too late to be marked stays leased and is due again when the lease is over. */
  ghost predicate Overdue(row: OutboxRow, row': OutboxRow, publisher: string, until: Time) {
    && SameAnnouncement(row, row')
    && row'.attempts == row.attempts + 1 && row'.leaseToken == row.leaseToken + 1
    && row'.lastError == None && row'.publishedAt == None
    && row'.leaseOwner == Some(publisher) && row'.leaseUntil == Some(until)
    && row'.nextAttemptAt == row.nextAttemptAt
    && (forall t :: Due(row', t) <==> until <= t && row.nextAttemptAt <= t)
  }

  /** What a round makes of a row that it leased at `start` and settled at `now`. */
  ghost predicate Settled(config: Config, row: OutboxRow, row': OutboxRow, outcome: Option<string>, start: Time, now: Time) {
    match outcome
    case Some(error) => Rescheduled(config, row, row', error, now)
    case None =>
      if now < start + config.leaseTTL as int then Delivered(row, row', now)
      else Overdue(row, row', config.publisherId, start + config.leaseTTL as int)
  }

  lemma RowSettles(config: Config, row: OutboxRow, outcome: Option<string>, start: Time, now: Time)
    requires ValidConfig(config) && row.publishedAt == None
    ensures Settled(config, row, Concluded(config, LeaseRow(row, config.publisherId, start, config.leaseTTL as int), outcome, now),
                    outcome, start, now)
  {
    DelayExact(config, row.attempts + 1, row.attempts + 1);
  }

  /** Every row of a batch is settled by its own message and its own reading of the clock; the others stay as they are. */
  ghost predicate RoundSettled(config: Config, rows: seq<OutboxRow>, rows': seq<OutboxRow>, chosen: seq<nat>,
                               outcome: nat -> Option<string>, clock: nat -> Time)
  {
    && |rows'| == |rows|
    && (forall k :: 0 <= k < |chosen| ==>
          chosen[k] < |rows| && Settled(config, rows[chosen[k]], rows'[chosen[k]], outcome(k), clock(0), clock(k + 1)))
    && (forall i :: 0 <= i < |rows| && i !in chosen ==> rows'[i] == rows[i])
  }

  lemma RowOfRound(config: Config, rows: seq<OutboxRow>, chosen: seq<nat>, outcome: nat -> Option<string>, clock: nat -> Time, i: nat)
    requires ValidConfig(config) && Numbered(rows) && IsBatch(rows, chosen, clock(0), config.batchSize) && i < |rows|
    ensures var rows' := Round(config, Leased(rows, chosen, config.publisherId, clock(0), config.leaseTTL as int),
                               chosen, outcome, clock, |chosen|);
            && (forall k :: 0 <= k < |chosen| && chosen[k] == i ==>
                  Settled(config, rows[i], rows'[i], outcome(k), clock(0), clock(k + 1)))
            && (i !in chosen ==> rows'[i] == rows[i])
  {
    var leased := Leased(rows, chosen, config.publisherId, clock(0), config.leaseTTL as int);
    RoundConcludes(config, leased, chosen, outcome, clock, |chosen|, i);
    forall k | 0 <= k < |chosen| && chosen[k] == i
      ensures Settled(config, rows[i], Round(config, leased, chosen, outcome, clock, |chosen|)[i], outcome(k), clock(0), clock(k + 1))
    {
      RowSettles(config, rows[i], outcome(k), clock(0), clock(k + 1));
    }
  }

  lemma RoundSettles(config: Config, rows: seq<OutboxRow>, chosen: seq<nat>, outcome: nat -> Option<string>, clock: nat -> Time)
    requires ValidConfig(config) && Numbered(rows) && IsBatch(rows, chosen, clock(0), config.batchSize)
    ensures RoundSettled(config, rows,
                         Round(config, Leased(rows, chosen, config.publisherId, clock(0), config.leaseTTL as int),
                               chosen, outcome, clock, |chosen|),
                         chosen, outcome, clock)
  {
    var rows' := Round(config, Leased(rows, chosen, config.publisherId, clock(0), config.leaseTTL as int),
                       chosen, outcome, clock, |chosen|);
    forall k | 0 <= k < |chosen|
      ensures Settled(config, rows[chosen[k]], rows'[chosen[k]], outcome(k), clock(0), clock(k + 1))
    {
      RowOfRound(config, rows, chosen, outcome, clock, chosen[k]);
    }
    forall i | 0 <= i < |rows| && i !in chosen
      ensures rows'[i] == rows[i]
    {
      RowOfRound(config, rows, chosen, outcome, clock, i);
    }
  }

  /** The errors that a round reports: one for each message that failed or could not be marked. */
  lemma {:induction false} FailuresReported(messages: seq<Message>, outcome: nat -> Option<string>, clock: nat -> Time, n: nat, f: Failure)
    requires n <= |messages|
    ensures f in Failures(messages, outcome, clock, n) <==>
            exists k :: 0 <= k < n && match outcome(k)
                                      case Some(error) => f == PublishFailed(messages[k].id, error, true)
                                      case None => messages[k].leaseUntil <= clock(k + 1) && f == MarkFailed(messages[k].id)
  {
    if n > 0 {
      FailuresReported(messages, outcome, clock, n - 1, f);
    }
  }

  /**
    One round, with the sink's answer to the k-th message and the clock's k-th reading as oracles: a batch
    is leased, and every row of it is published, rescheduled with its backoff, or kept and reported.
   */
  method RunOnce(repository: Repository, config: Config, outcome: nat -> Option<string>, clock: nat -> Time)
    returns (count: nat, failures: seq<Failure>, ghost chosen: seq<nat>, ghost messages: seq<Message>)
    requires ValidConfig(config) && Numbered(repository.rows)
    modifies repository
    ensures IsBatch(old(repository.rows), chosen, clock(0), config.batchSize) && count == |chosen|
    ensures Describes(messages, old(repository.rows), chosen, config.publisherId, clock(0), config.leaseTTL as int)
    ensures repository.rows ==
            Round(config, Leased(old(repository.rows), chosen, config.publisherId, clock(0), config.leaseTTL as int),
                  chosen, outcome, clock, |chosen|)
    ensures failures == Failures(messages, outcome, clock, |messages|)
    ensures RoundSettled(config, old(repository.rows), repository.rows, chosen, outcome, clock)
  {
    var answer;
    answer, chosen := repository.LeaseBatch(config.publisherId, clock(0), config.leaseTTL as int, config.batchSize);
    messages := [];
    if answer.Err? {
      return 0, [], chosen, messages;
    }
    messages := answer.value;
    LeasedBatch(old(repository.rows), chosen, messages, config.publisherId, clock(0), config.leaseTTL as int, config.batchSize);
    count := |answer.value|;
    failures := PublishBatch(repository, config, answer.value, outcome, clock, chosen);
    RoundSettles(config, old(repository.rows), chosen, outcome, clock);
  }

  /** When its turn comes, a message's row is as it was leased. */
  lemma StillHeld(config: Config, rows: seq<OutboxRow>, chosen: seq<nat>, outcome: nat -> Option<string>, clock: nat -> Time, n: nat, m: Message)
    requires ValidConfig(config) && n < |chosen| && Distinct(chosen) && Numbered(rows)
    requires forall k :: 0 <= k < |chosen| ==> chosen[k] < |rows|
    requires Holds(rows[chosen[n]], m, config.publisherId)
    ensures var r := Round(config, rows, chosen, outcome, clock, n);
            Numbered(r) && Holds(r[chosen[n]], m, config.publisherId)
  {
    RoundConcludes(config, rows, chosen, outcome, clock, n, chosen[n]);
  }

  method PublishBatch(repository: Repository, config: Config, batch: seq<Message>, outcome: nat -> Option<string>,
                      clock: nat -> Time, ghost chosen: seq<nat>)
    returns (failures: seq<Failure>)
    requires ValidConfig(config) && Numbered(repository.rows) && |batch| == |chosen| && Distinct(chosen)
    requires forall k :: 0 <= k < |chosen| ==>
               chosen[k] < |repository.rows| && Holds(repository.rows[chosen[k]], batch[k], config.publisherId)
    modifies repository
    ensures repository.rows == Round(config, old(repository.rows), chosen, outcome, clock, |chosen|)
    ensures failures == Failures(batch, outcome, clock, |batch|)
  {
    ghost var leased := repository.rows;
    failures := [];
    for n := 0 to |batch|
      invariant repository.rows == Round(config, leased, chosen, outcome, clock, n)
      invariant failures == Failures(batch, outcome, clock, n)
    {
      StillHeld(config, leased, chosen, outcome, clock, n, batch[n]);
      var failure := Conclude(repository, config, batch[n], outcome(n), clock(n + 1), chosen[n]);
      failures := failures + failure;
    }
  }

  /** Publishing one message, and settling its row. */
  method Conclude(repository: Repository, config: Config, m: Message, outcome: Option<string>, now: Time, ghost i: nat)
    returns (failures: seq<Failure>)
    requires ValidConfig(config) && Numbered(repository.rows)
    requires i < |repository.rows| && Holds(repository.rows[i], m, config.publisherId)
    modifies repository
    ensures repository.rows == old(repository.rows)[i := Concluded(config, old(repository.rows)[i], outcome, now)]
    ensures match outcome
            case Some(error) => DueFrom(old(repository.rows)[i], repository.rows[i], now + Wait(config, m.attempts), error)
            case None =>
              if now < m.leaseUntil then PublishedAt(old(repository.rows)[i], repository.rows[i], now)
              else repository.rows == old(repository.rows)
    ensures failures == match outcome
                        case Some(error) => [PublishFailed(m.id, error, true)]
                        case None => if now < m.leaseUntil then [] else [MarkFailed(m.id)]
  {
    if outcome.Some? {
      var delay := Backoff(config, m.attempts);
      DelayExact(config, m.attempts, m.attempts);
      OneRow(repository.rows, i, config.publisherId, m.leaseToken, now + delay as int, outcome.value);
      var answer := repository.MarkRetry(m.id, config.publisherId, m.leaseToken, now + delay as int, outcome.value);
      return [PublishFailed(m.id, outcome.value, answer.Ok?)];
    }
    OneRow(repository.rows, i, config.publisherId, m.leaseToken, now, "");
    var answer := repository.MarkPublished(m.id, config.publisherId, m.leaseToken, now);
    return if answer.Err? then [MarkFailed(m.id)] else [];
  }

  // A round is a run of the protocol

  lemma {:induction false} LeadsOn(s: State, ops: seq<Op>, s': State, op: Op)
    requires Leads(s, ops, s') && Enabled(s', op)
    ensures Leads(s, ops + [op], After(s', op))
    decreases |ops|
  {
    if ops == [] {
      assert [op][1..] == [];
    } else {
      LeadsOn(After(s, ops[0]), ops[1..], s', op);
      assert (ops + [op])[1..] == ops[1..] + [op];
    }
  }

  /** Settling a message is one step after a failed delivery, and two after a successful one. */
  lemma SettlingLeads(config: Config, s: State, i: nat, m: Message, outcome: Option<string>, now: Time) returns (ops: seq<Op>, s': State)
    requires ValidConfig(config) && Numbered(s.rows) && i < |s.rows|
    requires Holds(s.rows[i], m, config.publisherId) && 1 <= m.leaseToken
    ensures Leads(s, ops, s') && s'.rows == s.rows[i := Concluded(config, s.rows[i], outcome, now)]
    ensures s'.delivered == s.delivered + if outcome.None? then {(m.id, m.leaseToken)} else {}
  {
    if outcome.Some? {
      var next := now + Delay(config, m.attempts);
      OneRow(s.rows, i, config.publisherId, m.leaseToken, next, outcome.value);
      var retry := Retry(m.id, config.publisherId, m.leaseToken, next, outcome.value);
      ops, s' := [] + [retry], After(s, retry);
      LeadsOn(s, [], s, retry);
    } else {
      OneRow(s.rows, i, config.publisherId, m.leaseToken, now, "");
      var deliver, mark := Deliver(m.id, m.leaseToken), Mark(m.id, config.publisherId, m.leaseToken, now);
      LeadsOn(s, [], s, deliver);
      LeadsOn(s, [] + [deliver], After(s, deliver), mark);
      ops, s' := [] + [deliver] + [mark], After(After(s, deliver), mark);
    }
  }

  lemma {:induction false} LeadsJoin(a: State, first: seq<Op>, b: State, second: seq<Op>, c: State)
    requires Leads(a, first, b) && Leads(b, second, c)
    ensures Leads(a, first + second, c)
    decreases |first|
  {
    if first == [] {
      assert first + second == second;
    } else {
      LeadsJoin(After(a, first[0]), first[1..], b, second, c);
      assert (first + second)[1..] == first[1..] + second;
    }
  }

  lemma {:induction false} RoundLeads(config: Config, s: State, chosen: seq<nat>, batch: seq<Message>, outcome: nat -> Option<string>,
                                      clock: nat -> Time, n: nat)
    returns (ops: seq<Op>, s': State)
    requires ValidConfig(config) && Numbered(s.rows) && |batch| == |chosen| && Distinct(chosen) && n <= |chosen|
    requires forall k :: 0 <= k < |chosen| ==>
               chosen[k] < |s.rows| && Holds(s.rows[chosen[k]], batch[k], config.publisherId) && 1 <= batch[k].leaseToken
    ensures Leads(s, ops, s') && s'.rows == Round(config, s.rows, chosen, outcome, clock, n)
  {
    if n == 0 {
      ops, s' := [], s;
    } else {
      var before, middle := RoundLeads(config, s, chosen, batch, outcome, clock, n - 1);
      StillHeld(config, s.rows, chosen, outcome, clock, n - 1, batch[n - 1]);
      var settling;
      settling, s' := SettlingLeads(config, middle, chosen[n - 1], batch[n - 1], outcome(n - 1), clock(n));
      LeadsJoin(s, before, middle, settling, s');
      ops := before + settling;
    }
  }

  /** What a round does to the table is a run of the protocol: it marks only what the sink has accepted. */
  lemma RoundFollowsProtocol(config: Config, s: State, chosen: seq<nat>, messages: seq<Message>, outcome: nat -> Option<string>, clock: nat -> Time)
    returns (ops: seq<Op>, s': State)
    requires ValidConfig(config) && Numbered(s.rows) && IsBatch(s.rows, chosen, clock(0), config.batchSize)
    requires Describes(messages, s.rows, chosen, config.publisherId, clock(0), config.leaseTTL as int)
    ensures Leads(s, ops, s')
    ensures s'.rows == Round(config, Leased(s.rows, chosen, config.publisherId, clock(0), config.leaseTTL as int),
                             chosen, outcome, clock, |chosen|)
  {
    var lease := Lease(chosen, config.publisherId, clock(0), config.leaseTTL as int, config.batchSize);
    LeadsOn(s, [], s, lease);
    LeasedBatch(s.rows, chosen, messages, config.publisherId, clock(0), config.leaseTTL as int, config.batchSize);
    var rest;
    rest, s' := RoundLeads(config, After(s, lease), chosen, messages, outcome, clock, |chosen|);
    LeadsJoin(s, [] + [lease], After(s, lease), rest, s');
    ops := [] + [lease] + rest;
  }
}
