/**
  What holds over every interleaving of store calls, made by anyone and with clocks that may
  claim any time: fencing, append-only logs, final results that stay, and idempotent creation.
 */
module StoreHistory {
  import opened Domain
  import opened Store

  /** The calls lead from one store value to another. */
  ghost predicate Leads(repo: Repo, calls: seq<Call>, repo': Repo)
    decreases |calls|
  {
    if calls == [] then repo' == repo
    else Enabled(repo, calls[0]) && Leads(After(repo, calls[0]), calls[1..], repo')
  }

  // What one call does to one run

  /** A run's request never changes, its fence and log only grow, and once terminal it stays as it is. */
  ghost predicate Grows(entry: Entry, entry': Entry) {
    && entry'.record.id == entry.record.id
    && entry'.record.requestHash == entry.record.requestHash
    && RequestFrom(entry'.record) == RequestFrom(entry.record)
    && entry.record.fence <= entry'.record.fence
    && entry.log <= entry'.log
    && (IsTerminal(entry.record.status) ==> entry' == entry)
  }

  lemma GrowsTransitive(a: Entry, b: Entry, c: Entry)
    requires Grows(a, b) && Grows(b, c)
    ensures Grows(a, c)
  {
  }

  lemma UpdateGrows(entry: Entry, call: Call)
    requires !call.Create? && !IsTerminal(entry.record.status)
    ensures Grows(entry, Updated(entry, call))
  {
  }

  lemma CallGrows(repo: Repo, call: Call, id: string)
    requires Valid(repo) && Enabled(repo, call) && id in repo.runs
    ensures id in After(repo, call).runs
    ensures Grows(repo.runs[id], After(repo, call).runs[id])
  {
    if !call.Create? {
      CallEffect(repo, call);
      if id == Target(call) && !IsTerminal(repo.runs[id].record.status) {
        UpdateGrows(repo.runs[id], call);
      }
    }
  }

  /** Nothing that was written is ever taken back, whoever writes. */
  lemma {:induction false} HistoryGrows(repo: Repo, calls: seq<Call>, repo': Repo, id: string)
    requires Valid(repo) && Leads(repo, calls, repo') && id in repo.runs
    ensures id in repo'.runs && Grows(repo.runs[id], repo'.runs[id])
    decreases |calls|
  {
    if calls != [] {
      var next := After(repo, calls[0]);
      CallGrows(repo, calls[0], id);
      CallKeepsValid(repo, calls[0]);
      HistoryGrows(next, calls[1..], repo', id);
      GrowsTransitive(repo.runs[id], next.runs[id], repo'.runs[id]);
    }
  }

  lemma {:induction false} HistoryValid(repo: Repo, calls: seq<Call>, repo': Repo)
    requires Valid(repo) && Leads(repo, calls, repo')
    ensures Valid(repo')
    decreases |calls|
  {
    if calls != [] {
      CallKeepsValid(repo, calls[0]);
      HistoryValid(After(repo, calls[0]), calls[1..], repo');
    }
  }

  /** A finished run's record, log and checkpoint are never changed again. */
  lemma TerminalStays(repo: Repo, calls: seq<Call>, repo': Repo, id: string)
    requires Valid(repo) && Leads(repo, calls, repo') && id in repo.runs && IsTerminal(repo.runs[id].record.status)
    ensures id in repo'.runs && repo'.runs[id] == repo.runs[id]
  {
    HistoryGrows(repo, calls, repo', id);
  }

  // Fencing

  /** The fence under which a call writes to a run, if it does. */
  function Writer(call: Call): Option<(string, nat)> {
    match call
    case Create(_, _) => None
    case LeaseNext(_, _, _, _) => None
    case Renew(runId, _, fence, _, _) => Some((runId, fence))
    case Append(runId, _, fence, _, _, _) => Some((runId, fence))
    case Save(_, checkpoint) => Some((checkpoint.runId, checkpoint.fence))
    case Finish(runId, _, fence, _, _, _) => Some((runId, fence))
  }

  /** Only the holder of the run's current fence changes anything. */
  lemma OnlyCurrentFenceWrites(repo: Repo, call: Call)
    requires Valid(repo) && Enabled(repo, call) && Writer(call).Some?
    ensures var (runId, fence) := Writer(call).value;
            runId !in repo.runs || repo.runs[runId].record.fence != fence ==> After(repo, call) == repo
  {
    CallEffect(repo, call);
  }

  /**
    Fencing without trusting clocks: once a lease has issued a fence, no renewal, append, checkpoint or
    finish under an older fence ever succeeds, whatever happened since and whatever time it claims.
   */
  lemma StaleWritersRejected(repo: Repo, lease: Call, calls: seq<Call>, repo': Repo, call: Call)
    requires Valid(repo) && lease.LeaseNext? && Enabled(repo, lease)
    requires Leads(After(repo, lease), calls, repo')
    requires Enabled(repo', call) && Writer(call).Some?
    requires Writer(call).value.0 == lease.runId && Writer(call).value.1 <= repo.runs[lease.runId].record.fence
    ensures After(repo', call) == repo'
    ensures forall workerId, now :: LeaseCheck(repo', lease.runId, workerId, Writer(call).value.1, now) == Some(LeaseLost)
  {
    CallKeepsValid(repo, lease);
    HistoryValid(After(repo, lease), calls, repo');
    HistoryGrows(After(repo, lease), calls, repo', lease.runId);
    OnlyCurrentFenceWrites(repo', call);
  }

  /** The fences behind the events a history adds to a run's log. */
  ghost function Fences(repo: Repo, calls: seq<Call>, repo': Repo, id: string): seq<nat>
    requires Leads(repo, calls, repo')
    decreases |calls|
  {
    if calls == [] then []
    else
      var next := After(repo, calls[0]);
      var rest := Fences(next, calls[1..], repo', id);
      if id in repo.runs && id in next.runs && |next.runs[id].log| != |repo.runs[id].log| then
        [next.runs[id].record.fence] + rest
      else rest
  }

  lemma CallAddsOne(repo: Repo, call: Call, id: string)
    requires Valid(repo) && Enabled(repo, call) && id in repo.runs
    ensures id in After(repo, call).runs
    ensures var n, n' := |repo.runs[id].log|, |After(repo, call).runs[id].log|;
            && n <= n' <= n + 1
            && (n' == n + 1 ==> Writer(call) == Some((id, After(repo, call).runs[id].record.fence)))
  {
    if !call.Create? {
      CallEffect(repo, call);
      if After(repo, call) != repo && id == Target(call) {
        UpdateAddsOne(repo.runs[id], call);
      }
    }
  }

  lemma UpdateAddsOne(entry: Entry, call: Call)
    requires !call.Create?
    ensures var n, n' := |entry.log|, |Updated(entry, call).log|;
            n' == n + if call.Append? || call.Finish? then 1 else 0
  {
  }

  predicate AscendingWithin(lo: nat, fences: seq<nat>, hi: nat) {
    && (forall i :: 0 <= i < |fences| ==> lo <= fences[i] <= hi)
    && (forall i, j :: 0 <= i < j < |fences| ==> fences[i] <= fences[j])
  }

  lemma AscendingFrom(lo: nat, first: nat, fences: seq<nat>, hi: nat)
    requires lo <= first <= hi && AscendingWithin(first, fences, hi)
    ensures AscendingWithin(lo, [first] + fences, hi) && AscendingWithin(lo, fences, hi)
  {
  }

  /** One fence per added event, each the writer's own, and never going back. */
  lemma {:induction false} FencesAscend(repo: Repo, calls: seq<Call>, repo': Repo, id: string)
    requires Valid(repo) && Leads(repo, calls, repo') && id in repo.runs
    ensures id in repo'.runs
    ensures |repo'.runs[id].log| == |repo.runs[id].log| + |Fences(repo, calls, repo', id)|
    ensures AscendingWithin(repo.runs[id].record.fence, Fences(repo, calls, repo', id), repo'.runs[id].record.fence)
    decreases |calls|
  {
    if calls != [] {
      var next := After(repo, calls[0]);
      CallGrows(repo, calls[0], id);
      CallAddsOne(repo, calls[0], id);
      CallKeepsValid(repo, calls[0]);
      FencesAscend(next, calls[1..], repo', id);
      HistoryGrows(next, calls[1..], repo', id);
      AscendingFrom(repo.runs[id].record.fence, next.runs[id].record.fence,
                    Fences(next, calls[1..], repo', id), repo'.runs[id].record.fence);
    }
  }

  // Idempotent creation

  /** The run made for a (tenant, key) pair is in the store. */
  predicate Present(repo: Repo, tenantId: string, key: string) {
    var joined := JoinedKey(tenantId, key);
    && joined in repo.byIdempotency
    && repo.byIdempotency[joined] in repo.runs
    && repo.runs[repo.byIdempotency[joined]].record.tenantId == tenantId
    && repo.runs[repo.byIdempotency[joined]].record.idempotencyKey == key
  }

  /** A successful creation answers with a run that carries exactly the caller's request, up to the run id. */
  lemma CreateAnswersCaller(repo: Repo, request: RunRequest, now: Time)
    requires Valid(repo) && CreateRun(repo, request, now).1.Ok?
    ensures var (repo', answer) := CreateRun(repo, request, now);
            var (record, created) := answer.value;
            && record.id in repo'.runs && record == repo'.runs[record.id].record
            && RequestFrom(record) == request.(runId := record.id)
            && Present(repo', request.tenantId, request.idempotencyKey)
            && repo'.byIdempotency[JoinedKey(request.tenantId, request.idempotencyKey)] == record.id
            && (created <==> !Present(repo, request.tenantId, request.idempotencyKey))
            && (created ==> record.id == request.runId && record.id !in repo.runs)
            && (!created ==> repo' == repo)
  {
    var (repo', answer) := CreateRun(repo, request, now);
    if !answer.value.1 {
      assert EntryOk(repo.byIdempotency[JoinedKey(request.tenantId, request.idempotencyKey)],
                     repo.runs[repo.byIdempotency[JoinedKey(request.tenantId, request.idempotencyKey)]]);
    }
  }

  lemma CallKeepsPresent(repo: Repo, call: Call, tenantId: string, key: string)
    requires Valid(repo) && Enabled(repo, call) && Present(repo, tenantId, key)
    ensures Present(After(repo, call), tenantId, key)
    ensures var joined := JoinedKey(tenantId, key); After(repo, call).byIdempotency[joined] == repo.byIdempotency[joined]
  {
    CallGrows(repo, call, repo.byIdempotency[JoinedKey(tenantId, key)]);
    if !call.Create? {
      CallEffect(repo, call);
    }
  }

  /** All successful creations for one pair answer with the same run, whatever happens in between. */
  lemma {:induction false} SamePairSameRun(repo: Repo, calls: seq<Call>, repo': Repo, request: RunRequest, now: Time)
    requires Valid(repo) && Leads(repo, calls, repo') && Present(repo, request.tenantId, request.idempotencyKey)
    requires CreateRun(repo', request, now).1.Ok?
    ensures var (record, created) := CreateRun(repo', request, now).1.value;
            record.id == repo.byIdempotency[JoinedKey(request.tenantId, request.idempotencyKey)] && !created
    decreases |calls|
  {
    if calls == [] {
      CreateAnswersCaller(repo', request, now);
    } else {
      CallKeepsPresent(repo, calls[0], request.tenantId, request.idempotencyKey);
      CallKeepsValid(repo, calls[0]);
      SamePairSameRun(After(repo, calls[0]), calls[1..], repo', request, now);
    }
  }

  /** Two pairs never share a run, even when their joined keys collide. */
  lemma PairsNeverShareRuns(repo: Repo, first: RunRequest, calls: seq<Call>, repo': Repo, second: RunRequest, now: Time, later: Time)
    requires Valid(repo) && CreateRun(repo, first, now).1.Ok?
    requires Leads(CreateRun(repo, first, now).0, calls, repo')
    requires CreateRun(repo', second, later).1.Ok?
    requires CreateRun(repo, first, now).1.value.0.id == CreateRun(repo', second, later).1.value.0.id
    ensures first.tenantId == second.tenantId && first.idempotencyKey == second.idempotencyKey
  {
    var id := CreateRun(repo, first, now).1.value.0.id;
    var middle := CreateRun(repo, first, now).0;
    CreateAnswersCaller(repo, first, now);
    CreateKeepsValid(repo, first, now);
    HistoryValid(middle, calls, repo');
    HistoryGrows(middle, calls, repo', id);
    CreateAnswersCaller(repo', second, later);
    assert CreateRun(repo', second, later).1.value.0.tenantId == middle.runs[id].record.tenantId;
  }

  predicate CreatesFor(call: Call, tenantId: string, key: string) {
    call.Create? && call.request.tenantId == tenantId && call.request.idempotencyKey == key
  }

  /** How many calls for a pair were answered with `created`, and how many succeeded at all. */
  ghost function Counts(repo: Repo, calls: seq<Call>, repo': Repo, tenantId: string, key: string): (nat, nat)
    requires Leads(repo, calls, repo')
    decreases |calls|
  {
    if calls == [] then (0, 0)
    else
      var rest := Counts(After(repo, calls[0]), calls[1..], repo', tenantId, key);
      if CreatesFor(calls[0], tenantId, key) && CreateRun(repo, calls[0].request, calls[0].now).1.Ok? then
        (rest.0 + (if CreateRun(repo, calls[0].request, calls[0].now).1.value.1 then 1 else 0), rest.1 + 1)
      else rest
  }

  function Indicator(b: bool): nat {
    if b then 1 else 0
  }

  lemma CallChangesPresent(repo: Repo, call: Call, tenantId: string, key: string)
    requires Valid(repo) && Enabled(repo, call)
    ensures Present(After(repo, call), tenantId, key) <==>
              Present(repo, tenantId, key) ||
              (CreatesFor(call, tenantId, key) && CreateRun(repo, call.request, call.now).1.Ok?)
  {
    if Present(repo, tenantId, key) {
      CallKeepsPresent(repo, call, tenantId, key);
    } else if CreatesFor(call, tenantId, key) && CreateRun(repo, call.request, call.now).1.Ok? {
      CreateAnswersCaller(repo, call.request, call.now);
    }
  }

  /** `created` is answered exactly when the pair first becomes present. */
  lemma {:induction false} CreatedOnce(repo: Repo, calls: seq<Call>, repo': Repo, tenantId: string, key: string)
    requires Valid(repo) && Leads(repo, calls, repo')
    ensures var (created, succeeded) := Counts(repo, calls, repo', tenantId, key);
            && Indicator(Present(repo, tenantId, key)) + created == Indicator(Present(repo', tenantId, key))
            && (0 < succeeded ==> Present(repo', tenantId, key))
    decreases |calls|
  {
    if calls != [] {
      var next := After(repo, calls[0]);
      CallKeepsValid(repo, calls[0]);
      CreatedOnce(next, calls[1..], repo', tenantId, key);
      CallChangesPresent(repo, calls[0], tenantId, key);
      if CreatesFor(calls[0], tenantId, key) && CreateRun(repo, calls[0].request, calls[0].now).1.Ok? {
        CreateAnswersCaller(repo, calls[0].request, calls[0].now);
      }
    }
  }

  /** From the empty store: if any creation for a pair succeeded, exactly one was answered with `created`. */
  lemma CreatedExactlyOnce(calls: seq<Call>, repo: Repo, tenantId: string, key: string)
    requires Leads(EMPTY_REPO, calls, repo)
    requires Counts(EMPTY_REPO, calls, repo, tenantId, key).1 > 0
    ensures Counts(EMPTY_REPO, calls, repo, tenantId, key).0 == 1
  {
    CreatedOnce(EMPTY_REPO, calls, repo, tenantId, key);
  }
}
