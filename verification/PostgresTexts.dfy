/**
  Which texts the database takes, told without the checks that the columns make: no text of a call has a NUL
  character, and the strings within the arguments of a tool call read as whole characters, none of them NUL.
 */
module PostgresTexts {
  import opened Domain
  import opened EngineState
  import opened Store
  import P = Postgres

  // Reading the escapes of a JSON text

  function HexValue(c: char): int {
    if '0' <= c <= '9' then c as int - '0' as int
    else if 'a' <= c <= 'f' then c as int - 'a' as int + 10
    else if 'A' <= c <= 'F' then c as int - 'A' as int + 10
    else 16
  }

  predicate HexDigits(digits: string) {
    |digits| == 4 && forall i :: 0 <= i < 4 ==> HexValue(digits[i]) < 16
  }

  function UnitOf(digits: string): int
    requires |digits| == 4
  {
    HexValue(digits[0]) * 4096 + HexValue(digits[1]) * 256 + HexValue(digits[2]) * 16 + HexValue(digits[3])
  }

  predicate StartsUnit(json: string, i: nat) {
    i + 6 <= |json| && json[i] == '\\' && json[i + 1] == 'u'
  }

  /** Every numeric escape has its four digits. */
  predicate WellEscaped(json: string, i: nat)
    decreases |json| - i
  {
    if |json| <= i then true
    else if StartsUnit(json, i) then HexDigits(json[i + 2..i + 6]) && WellEscaped(json, i + 6)
    else if json[i] == '\\' then WellEscaped(json, i + 2)
    else WellEscaped(json, i + 1)
  }

  /** The code units that a text stands for; an escape with a letter stands for one that is neither NUL nor half a pair. */
  function Units(json: string, i: nat): seq<int>
    decreases |json| - i
  {
    if |json| <= i then []
    else if StartsUnit(json, i) then [UnitOf(json[i + 2..i + 6])] + Units(json, i + 6)
    else if json[i] == '\\' then ['\\' as int] + Units(json, i + 2)
    else [json[i] as int] + Units(json, i + 1)
  }

  predicate High(unit: int) {
    0xD800 <= unit <= 0xDBFF
  }

  predicate Low(unit: int) {
    0xDC00 <= unit <= 0xDFFF
  }

  /** A unit that is not NUL and, if it is half of a surrogate pair, stands by its other half. */
  predicate WholeAt(units: seq<int>, k: nat)
    requires k < |units|
  {
    && units[k] != 0
    && (High(units[k]) ==> k + 1 < |units| && Low(units[k + 1]))
    && (Low(units[k]) ==> 0 < k && High(units[k - 1]))
  }

  /** Whole characters, none of them NUL. */
  ghost predicate Whole(units: seq<int>) {
    forall k :: 0 <= k < |units| ==> WholeAt(units, k)
  }

  lemma WholeOne(unit: int, rest: seq<int>)
    requires !High(unit) && !Low(unit)
    ensures Whole([unit] + rest) <==> unit != 0 && Whole(rest)
  {
    var units := [unit] + rest;
    forall k | 0 <= k < |rest|
      ensures WholeAt(units, k + 1) <==> WholeAt(rest, k)
    {
      assert units[k + 1] == rest[k] && units[k] == if k == 0 then unit else rest[k - 1];
      assert k + 2 < |units| ==> units[k + 2] == rest[k + 1];
    }
    assert units[0] == unit;
    assert Whole(units) ==> WholeAt(units, 0);
    forall k | 0 < k < |units|
      ensures Whole(rest) ==> WholeAt(units, k)
    {
      assert WholeAt(units, (k - 1) + 1) <==> WholeAt(rest, k - 1);
    }
  }

  lemma WholePair(high: int, low: int, rest: seq<int>)
    requires High(high) && Low(low)
    ensures Whole([high] + ([low] + rest)) <==> Whole(rest)
  {
    var units := [high] + ([low] + rest);
    assert units[0] == high && units[1] == low;
    forall k | 0 <= k < |rest|
      ensures WholeAt(units, k + 2) <==> WholeAt(rest, k)
    {
      assert units[k + 2] == rest[k] && units[k + 1] == if k == 0 then low else rest[k - 1];
      assert k + 3 < |units| ==> units[k + 3] == rest[k + 1];
    }
    forall k | 1 < k < |units|
      ensures Whole(rest) ==> WholeAt(units, k)
    {
      assert WholeAt(units, (k - 2) + 2) <==> WholeAt(rest, k - 2);
    }
  }

  lemma NotWhole(unit: int, rest: seq<int>)
    requires Low(unit) || (High(unit) && (rest == [] || !Low(rest[0])))
    ensures !Whole([unit] + rest)
  {
    var units := [unit] + rest;
    assert units[0] == unit;
    assert rest != [] ==> units[1] == rest[0];
    assert !WholeAt(units, 0);
  }

  lemma DigitsOfSurrogates(c: char)
    ensures c in "dD" <==> HexValue(c) == 13
    ensures c in "89abAB" <==> 8 <= HexValue(c) <= 11
    ensures c in "cdefCDEF" <==> 12 <= HexValue(c) <= 15
    ensures c == '0' <==> HexValue(c) == 0
  {
    assert c in "dD" <==> c == 'd' || c == 'D';
    assert c in "89abAB" <==> c == '8' || c == '9' || c == 'a' || c == 'b' || c == 'A' || c == 'B';
    assert c in "cdefCDEF" <==> c == 'c' || c == 'd' || c == 'e' || c == 'f' || c == 'C' || c == 'D' || c == 'E' || c == 'F';
  }

  lemma UnitRanges(a: int, b: int, c: int, d: int)
    requires 0 <= a < 16 && 0 <= b < 16 && 0 <= c < 16 && 0 <= d < 16
    ensures High(a * 4096 + b * 256 + c * 16 + d) <==> a == 13 && 8 <= b <= 11
    ensures Low(a * 4096 + b * 256 + c * 16 + d) <==> a == 13 && 12 <= b <= 15
    ensures a * 4096 + b * 256 + c * 16 + d == 0 <==> a == 0 && b == 0 && c == 0 && d == 0
  {
  }

  lemma Surrogates(digits: string)
    requires HexDigits(digits)
    ensures P.HighSurrogate(digits) <==> High(UnitOf(digits))
    ensures P.LowSurrogate(digits) <==> Low(UnitOf(digits))
    ensures digits == "0000" <==> UnitOf(digits) == 0
  {
    DigitsOfSurrogates(digits[0]);
    DigitsOfSurrogates(digits[1]);
    DigitsOfSurrogates(digits[2]);
    DigitsOfSurrogates(digits[3]);
    UnitRanges(HexValue(digits[0]), HexValue(digits[1]), HexValue(digits[2]), HexValue(digits[3]));
    assert digits == [digits[0], digits[1], digits[2], digits[3]];
  }

  /** The first unit read from a place is half a pair only if an escape stands there. */
  lemma FirstUnit(json: string, i: nat)
    requires i < |json|
    ensures Units(json, i) != []
    ensures !StartsUnit(json, i) ==> !Low(Units(json, i)[0]) && !High(Units(json, i)[0])
    ensures StartsUnit(json, i) ==> Units(json, i)[0] == UnitOf(json[i + 2..i + 6])
  {
  }

  /** The check accepts a text exactly when the text reads as whole characters. */
  lemma {:induction false} EscapesDecided(json: string, i: nat)
    requires WellEscaped(json, i) && P.NulFree(json)
    ensures P.EscapesFrom(json, i) <==> Whole(Units(json, i))
    decreases |json| - i
  {
    if i < |json| {
      if StartsUnit(json, i) {
        UnitDecided(json, i);
      } else if json[i] == '\\' {
        EscapesDecided(json, i + 2);
        WholeOne('\\' as int, Units(json, i + 2));
      } else {
        EscapesDecided(json, i + 1);
        WholeOne(json[i] as int, Units(json, i + 1));
      }
    }
  }

  lemma {:induction false} UnitDecided(json: string, i: nat)
    requires WellEscaped(json, i) && P.NulFree(json) && StartsUnit(json, i)
    ensures P.EscapesFrom(json, i) <==> Whole(Units(json, i))
    decreases |json| - i, 0
  {
    var digits, rest := json[i + 2..i + 6], Units(json, i + 6);
    Surrogates(digits);
    if i + 6 < |json| {
      FirstUnit(json, i + 6);
    }
    if P.HighSurrogate(digits) && StartsUnit(json, i + 6) {
      var second := json[i + 8..i + 12];
      Surrogates(second);
      if P.LowSurrogate(second) {
        EscapesDecided(json, i + 12);
        WholePair(UnitOf(digits), UnitOf(second), Units(json, i + 12));
      } else {
        NotWhole(UnitOf(digits), rest);
      }
    } else if P.HighSurrogate(digits) || P.LowSurrogate(digits) {
      NotWhole(UnitOf(digits), rest);
    } else {
      EscapesDecided(json, i + 6);
      WholeOne(UnitOf(digits), rest);
    }
  }

  // The texts of a call

  ghost predicate IsTextOfCall(call: ToolCall, text: string) {
    text == call.id || text == call.name || text == call.arguments
  }

  ghost predicate IsTextOfResult(result: FinalResult, text: string) {
    text == result.output || text == result.error
  }

  ghost predicate IsTextOfManifest(m: Manifest, text: string) {
    || text == m.releaseId || text == m.checksum || text == m.agentVersion || text == m.promptVersion
    || text == m.toolsetVersion || text == m.modelProfileVersion || text == m.policyVersion
    || text in m.skillVersions
  }

  ghost predicate IsTextOfRequest(request: RunRequest, text: string) {
    || text == request.runId || text == request.tenantId || text == request.idempotencyKey || text == request.input
    || IsTextOfManifest(request.manifest, text)
  }

  ghost predicate IsTextOfPayload(payload: Payload, text: string) {
    || (payload.CreatedPayload? && IsTextOfManifest(payload.manifest, text))
    || (payload.EngineCreatedPayload? && text == payload.releaseId)
    || (payload.StartedPayload? && text == payload.adapter)
    || (payload.DeltaPayload? && text == payload.delta)
    || (payload.RequestedPayload? && IsTextOfCall(payload.call, text))
    || (payload.CompletedPayload? && (text == payload.callId || text == payload.name || text == payload.content))
    || (payload.FailedPayload? && (text == payload.callId || text == payload.name || text == payload.error))
    || (payload.ResultPayload? && IsTextOfResult(payload.result, text))
  }

  ghost predicate IsTextOfMessage(m: Message, text: string) {
    || text == m.content || text == m.toolCallId || text == m.toolName
    || exists call :: call in m.toolCalls && IsTextOfCall(call, text)
  }

  ghost predicate IsTextOfState(s: ExecutionState, text: string) {
    || text == s.runId || text == s.manifestChecksum || (s.phase.OtherPhase? && text == s.phase.text)
    || (exists m :: m in s.messages && IsTextOfMessage(m, text))
    || (exists call :: call in s.pending && IsTextOfCall(call, text))
  }

  /** The texts that a call asks the tables to hold. */
  ghost predicate Writes(call: Call, text: string) {
    match call
    case Create(request, _) => IsTextOfRequest(request, text)
    case LeaseNext(_, workerId, _, _) => text == workerId
    case Renew(_, _, _, _, _) => false
    case Append(_, _, _, _, payload, _) => IsTextOfPayload(payload, text)
    case Save(_, checkpoint) => IsTextOfState(checkpoint.state, text)
    case Finish(_, _, _, result, _, _) => IsTextOfResult(result, text)
  }

  /** The tool calls among what a call asks the tables to hold. */
  ghost predicate WritesCall(call: Call, toolCall: ToolCall) {
    || (call.Append? && call.payload.RequestedPayload? && toolCall == call.payload.call)
    || (call.Save? && toolCall in call.checkpoint.state.pending)
    || (call.Save? && exists m :: m in call.checkpoint.state.messages && toolCall in m.toolCalls)
  }

  lemma ToolCallTexts(call: ToolCall)
    ensures P.StorableToolCall(call) <==>
            (forall text :: IsTextOfCall(call, text) ==> '\0' !in text) && P.EscapesFrom(call.arguments, 0)
  {
    assert IsTextOfCall(call, call.id) && IsTextOfCall(call, call.name) && IsTextOfCall(call, call.arguments);
  }

  lemma ManifestTexts(m: Manifest)
    ensures P.StorableManifest(m) <==> forall text :: IsTextOfManifest(m, text) ==> '\0' !in text
  {
    assert IsTextOfManifest(m, m.releaseId) && IsTextOfManifest(m, m.checksum) && IsTextOfManifest(m, m.agentVersion);
    assert IsTextOfManifest(m, m.promptVersion) && IsTextOfManifest(m, m.toolsetVersion);
    assert IsTextOfManifest(m, m.modelProfileVersion) && IsTextOfManifest(m, m.policyVersion);
    assert forall i :: 0 <= i < |m.skillVersions| ==> IsTextOfManifest(m, m.skillVersions[i]);
  }

  lemma RequestTexts(request: RunRequest)
    ensures P.Storable(request) <==> forall text :: IsTextOfRequest(request, text) ==> '\0' !in text
  {
    ManifestTexts(request.manifest);
    assert IsTextOfRequest(request, request.runId) && IsTextOfRequest(request, request.tenantId);
    assert IsTextOfRequest(request, request.idempotencyKey) && IsTextOfRequest(request, request.input);
    assert forall text :: IsTextOfManifest(request.manifest, text) ==> IsTextOfRequest(request, text);
  }

  lemma ResultTexts(result: FinalResult)
    ensures P.StorableResult(result) <==> forall text :: IsTextOfResult(result, text) ==> '\0' !in text
  {
    assert IsTextOfResult(result, result.output) && IsTextOfResult(result, result.error);
  }

  lemma PayloadTexts(payload: Payload)
    ensures P.StorablePayload(payload) <==>
            && (forall text :: IsTextOfPayload(payload, text) ==> '\0' !in text)
            && (payload.RequestedPayload? ==> P.EscapesFrom(payload.call.arguments, 0))
  {
    match payload
    case CreatedPayload(_, manifest) =>
      ManifestTexts(manifest);
      assert forall text :: IsTextOfPayload(payload, text) <==> IsTextOfManifest(manifest, text);
    case RequestedPayload(call) =>
      ToolCallTexts(call);
      assert forall text :: IsTextOfPayload(payload, text) <==> IsTextOfCall(call, text);
    case ResultPayload(result) =>
      ResultTexts(result);
      assert forall text :: IsTextOfPayload(payload, text) <==> IsTextOfResult(result, text);
    case EngineCreatedPayload(releaseId, _) => assert IsTextOfPayload(payload, releaseId);
    case StartedPayload(adapter, _) => assert IsTextOfPayload(payload, adapter);
    case DeltaPayload(_, delta) => assert IsTextOfPayload(payload, delta);
    case UsagePayload(_, _, _) =>
    case CompletedPayload(callId, name, content) =>
      assert IsTextOfPayload(payload, callId) && IsTextOfPayload(payload, name) && IsTextOfPayload(payload, content);
    case FailedPayload(callId, name, error) =>
      assert IsTextOfPayload(payload, callId) && IsTextOfPayload(payload, name) && IsTextOfPayload(payload, error);
  }

  ghost predicate EscapesWell(calls: seq<ToolCall>) {
    forall call :: call in calls ==> P.EscapesFrom(call.arguments, 0)
  }

  lemma CallsTexts(calls: seq<ToolCall>)
    ensures (forall i :: 0 <= i < |calls| ==> P.StorableToolCall(calls[i])) <==>
            && (forall call, text :: call in calls && IsTextOfCall(call, text) ==> '\0' !in text)
            && EscapesWell(calls)
  {
    forall i | 0 <= i < |calls|
      ensures P.StorableToolCall(calls[i]) <==>
              (forall text :: IsTextOfCall(calls[i], text) ==> '\0' !in text) && P.EscapesFrom(calls[i].arguments, 0)
    {
      ToolCallTexts(calls[i]);
    }
    if forall i :: 0 <= i < |calls| ==> P.StorableToolCall(calls[i]) {
      forall call | call in calls
        ensures P.StorableToolCall(call)
      {
        var i :| 0 <= i < |calls| && calls[i] == call;
      }
    } else {
      var i :| 0 <= i < |calls| && !P.StorableToolCall(calls[i]);
      assert calls[i] in calls;
    }
  }

  lemma MessageTexts(m: Message)
    ensures P.StorableMessage(m) <==>
            (forall text :: IsTextOfMessage(m, text) ==> '\0' !in text) && EscapesWell(m.toolCalls)
  {
    CallsTexts(m.toolCalls);
    assert IsTextOfMessage(m, m.content) && IsTextOfMessage(m, m.toolCallId) && IsTextOfMessage(m, m.toolName);
    forall call, text | call in m.toolCalls && IsTextOfCall(call, text)
      ensures IsTextOfMessage(m, text)
    {
    }
  }

  lemma StateTexts(s: ExecutionState)
    ensures P.StorableState(s) <==>
            && (forall text :: IsTextOfState(s, text) ==> '\0' !in text)
            && EscapesWell(s.pending) && (forall m :: m in s.messages ==> EscapesWell(m.toolCalls))
  {
    CallsTexts(s.pending);
    assert IsTextOfState(s, s.runId) && IsTextOfState(s, s.manifestChecksum);
    assert s.phase.OtherPhase? ==> IsTextOfState(s, s.phase.text);
    forall m, text | m in s.messages && IsTextOfMessage(m, text)
      ensures IsTextOfState(s, text)
    {
    }
    forall call, text | call in s.pending && IsTextOfCall(call, text)
      ensures IsTextOfState(s, text)
    {
    }
    forall i | 0 <= i < |s.messages|
      ensures P.StorableMessage(s.messages[i]) <==>
              (forall text :: IsTextOfMessage(s.messages[i], text) ==> '\0' !in text) && EscapesWell(s.messages[i].toolCalls)
    {
      MessageTexts(s.messages[i]);
    }
    if P.StorableState(s) {
      forall m | m in s.messages
        ensures P.StorableMessage(m) && EscapesWell(m.toolCalls) && (forall text :: IsTextOfMessage(m, text) ==> '\0' !in text)
      {
        var i :| 0 <= i < |s.messages| && s.messages[i] == m;
      }
    }
  }

  /** The columns take a call exactly if none of its texts has a NUL character and its tool calls' arguments are well escaped. */
  lemma CallTexts(call: Call)
    ensures P.StorableCall(call) <==>
            && (forall text :: Writes(call, text) ==> '\0' !in text)
            && (forall toolCall :: WritesCall(call, toolCall) ==> P.EscapesFrom(toolCall.arguments, 0))
  {
    match call
    case Create(request, _) =>
      RequestTexts(request);
      assert forall text :: Writes(call, text) <==> IsTextOfRequest(request, text);
    case LeaseNext(_, workerId, _, _) => assert Writes(call, workerId);
    case Renew(_, _, _, _, _) =>
    case Append(_, _, _, _, payload, _) =>
      PayloadTexts(payload);
      assert forall text :: Writes(call, text) <==> IsTextOfPayload(payload, text);
      assert payload.RequestedPayload? ==> WritesCall(call, payload.call);
    case Save(_, checkpoint) =>
      StateTexts(checkpoint.state);
      assert forall text :: Writes(call, text) <==> IsTextOfState(checkpoint.state, text);
      assert forall c :: c in checkpoint.state.pending ==> WritesCall(call, c);
      assert forall m, c :: m in checkpoint.state.messages && c in m.toolCalls ==> WritesCall(call, c);
    case Finish(_, _, _, result, _, _) =>
      ResultTexts(result);
      assert forall text :: Writes(call, text) <==> IsTextOfResult(result, text);
  }
}
