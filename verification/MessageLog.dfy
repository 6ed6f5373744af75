/** The message log: a retrying worker that writes rows unconditionally and
    delivery webhooks that write them by rank, on the same rows. */
module MessageLog {
  import opened Wrappers

  datatype Status = Queued | Sent | Delivered | Read | Failed

  function Rank(status: Status): nat {
    match status
    case Queued => 1
    case Sent => 2
    case Delivered => 3
    case Read => 4
    case Failed => 99
  }

  datatype Row = Row(
    status: Status, providerId: Option<string>, failure: Option<string>,
    sentAt: Option<int>, deliveredAt: Option<int>, readAt: Option<int>)

  const QUEUED_ROW := Row(Queued, None, None, None, None, None)

  function Coalesce<T>(current: Option<T>, candidate: Option<T>): Option<T> {
    if current.Some? then current else candidate
  }

  // -------------------------------------------------------------------------
  // Writes to one row
  // -------------------------------------------------------------------------

  function AsSent(row: Row, providerId: string, now: int): Row {
    row.(status := Sent, providerId := Some(providerId), sentAt := Some(now))
  }

  function AsFailed(row: Row, reason: string): Row {
    row.(status := Failed, failure := Some(reason))
  }

  function IfHigherRank(row: Row, status: Status, deliveredAt: Option<int>, readAt: Option<int>): Row {
    if Rank(row.status) < Rank(status) then
      row.(status := status, deliveredAt := Coalesce(row.deliveredAt, deliveredAt),
           readAt := Coalesce(row.readAt, readAt))
    else row
  }

  datatype Receipt = DeliveredReceipt | ReadReceipt | FailedReceipt(reason: string)

  function Receive(row: Row, receipt: Receipt, now: int): Row {
    match receipt
    case DeliveredReceipt => IfHigherRank(row, Delivered, Some(now), None)
    case ReadReceipt => IfHigherRank(row, Read, Some(now), Some(now))
    case FailedReceipt(reason) =>
      if row.status.Sent? || row.status.Delivered? then AsFailed(row, reason) else row
  }

  // -------------------------------------------------------------------------
  // Receipts in any order
  // -------------------------------------------------------------------------

  datatype Timed = Timed(receipt: Receipt, at: int)

  function ReceiveAll(row: Row, list: seq<Timed>): Row
    decreases |list|
  {
    if list == [] then row else ReceiveAll(Receive(row, list[0].receipt, list[0].at), list[1..])
  }

  ghost predicate Contains(list: seq<Timed>, receipt: Receipt) {
    exists i :: 0 <= i < |list| && list[i].receipt == receipt
  }

  ghost predicate DeliveredOrRead(list: seq<Timed>) {
    forall i :: 0 <= i < |list| ==> !list[i].receipt.FailedReceipt?
  }

  lemma {:induction false} ReceiptsReachMaximum(row: Row, list: seq<Timed>)
    requires DeliveredOrRead(list) && (row.status.Sent? || row.status.Delivered? || row.status.Read?)
    ensures ReceiveAll(row, list).status ==
              if row.status.Read? || Contains(list, ReadReceipt) then Read
              else if row.status.Delivered? || Contains(list, DeliveredReceipt) then Delivered
              else Sent
    decreases |list|
  {
    if list == [] {
    } else {
      ReceiptsReachMaximum(Receive(row, list[0].receipt, list[0].at), list[1..]);
      forall r: Receipt
        ensures Contains(list, r) <==> list[0].receipt == r || Contains(list[1..], r)
      {
      }
    }
  }

  /** Any two deliveries of the same set of delivered and read receipts, in any
      order and with any repetitions, end in the same status. */
  lemma ReceiptOrderIrrelevant(row: Row, list: seq<Timed>, other: seq<Timed>)
    requires row.status.Sent? && DeliveredOrRead(list) && DeliveredOrRead(other)
    requires forall r: Receipt :: Contains(list, r) <==> Contains(other, r)
    ensures ReceiveAll(row, list).status == ReceiveAll(row, other).status
  {
    ReceiptsReachMaximum(row, list);
    ReceiptsReachMaximum(row, other);
  }

  /** Once a row has failed, no receipt of any kind changes it. */
  lemma {:induction false} FailedIgnoresReceipts(row: Row, list: seq<Timed>)
    requires row.status.Failed?
    ensures ReceiveAll(row, list) == row
    decreases |list|
  {
    if list == [] {
    } else {
      FailedIgnoresReceipts(row, list[1..]);
    }
  }

  // -------------------------------------------------------------------------
  // The repository, the worker and the webhook
  // -------------------------------------------------------------------------

  class MessageLogRepository {
    var rows: seq<Row>

    constructor ()
      ensures rows == []
    {
      rows := [];
    }

    method CreateQueued() returns (id: nat)
      modifies this
      ensures id == |old(rows)| && rows == old(rows) + [QUEUED_ROW]
    {
      id := |rows|;
      rows := rows + [QUEUED_ROW];
    }

    /** Some row that carries the provider's id. */
    method FindByProviderId(providerId: string) returns (id: Option<nat>)
      ensures id.Some? ==> id.value < |rows| && rows[id.value].providerId == Some(providerId)
      ensures id.None? ==> forall i :: 0 <= i < |rows| ==> rows[i].providerId != Some(providerId)
    {
      for i := 0 to |rows|
        invariant forall k :: 0 <= k < i ==> rows[k].providerId != Some(providerId)
      {
        if rows[i].providerId == Some(providerId) {
          return Some(i);
        }
      }
      return None;
    }

    method MarkSent(id: nat, providerId: string, now: int)
      modifies this
      ensures rows == if id < |old(rows)| then old(rows)[id := AsSent(old(rows)[id], providerId, now)] else old(rows)
    {
      if id < |rows| {
        rows := rows[id := rows[id].(status := Sent, providerId := Some(providerId), sentAt := Some(now))];
      }
    }

    method MarkFailed(id: nat, reason: string)
      modifies this
      ensures rows == if id < |old(rows)| then old(rows)[id := AsFailed(old(rows)[id], reason)] else old(rows)
    {
      if id < |rows| {
        rows := rows[id := rows[id].(status := Failed, failure := Some(reason))];
      }
    }

    method UpdateIfHigherRank(id: nat, status: Status, deliveredAt: Option<int>, readAt: Option<int>)
      returns (updated: bool)
      modifies this
      ensures updated <==> id < |old(rows)| && Rank(old(rows)[id].status) < Rank(status)
      ensures rows == if id < |old(rows)|
                      then old(rows)[id := IfHigherRank(old(rows)[id], status, deliveredAt, readAt)]
                      else old(rows)
    {
      updated := id < |rows| && Rank(rows[id].status) < Rank(status);
      if updated {
        var row := rows[id];
        if row.deliveredAt.None? {
          row := row.(deliveredAt := deliveredAt);
        }
        if row.readAt.None? {
          row := row.(readAt := readAt);
        }
        rows := rows[id := row.(status := status)];
      }
    }

    method MarkFailedFromWebhook(id: nat, reason: string) returns (updated: bool)
      modifies this
      ensures rows == if id < |old(rows)| then old(rows)[id := Receive(old(rows)[id], FailedReceipt(reason), 0)]
                      else old(rows)
      ensures updated <==> id < |old(rows)| && (old(rows)[id].status.Sent? || old(rows)[id].status.Delivered?)
    {
      updated := id < |rows| && (rows[id].status.Sent? || rows[id].status.Delivered?);
      if updated {
        rows := rows[id := rows[id].(status := Failed, failure := Some(reason))];
      }
    }
  }

  /** The sender's answer: the provider's id, or why it could not send. */
  datatype SendResult = Accepted(providerId: string) | Rejected(reason: string)

  datatype JobResult = LogNotFound | Skipped | Done | Retry(reason: string)

  /** What one uninterrupted worker attempt does to a row; `commitError` is the
      failure of the write after a send, if any. */
  function Attempt(row: Row, send: SendResult, commitError: Option<string>, now: int): Row {
    if row.status.Sent? || row.status.Delivered? || row.status.Read? then row
    else
      match send
      case Rejected(reason) => AsFailed(row, reason)
      case Accepted(providerId) =>
        if commitError.Some? then AsFailed(row, commitError.value) else AsSent(row, providerId, now)
  }

  class DispatchProcessor {
    const logs: MessageLogRepository

    constructor (logs: MessageLogRepository)
      ensures this.logs == logs
    {
      this.logs := logs;
    }

    method Process(id: nat, send: SendResult, commitError: Option<string>, now: int) returns (result: JobResult)
      modifies logs
      ensures id >= |old(logs.rows)| ==> result == LogNotFound && logs.rows == old(logs.rows)
      ensures id < |old(logs.rows)| ==>
        && logs.rows == old(logs.rows)[id := Attempt(old(logs.rows)[id], send, commitError, now)]
        && (result.Skipped? <==> !old(logs.rows)[id].status.Queued? && !old(logs.rows)[id].status.Failed?)
        && (result.Done? ==>
              send.Accepted? && logs.rows[id] == old(logs.rows)[id].(status := Sent, sentAt := Some(now),
                                                                     providerId := Some(send.providerId)))
        && (result.Retry? ==>
              logs.rows[id] == old(logs.rows)[id].(status := Failed, failure := Some(result.reason)))
        && !result.LogNotFound?
    {
      if id >= |logs.rows| {
        return LogNotFound;
      }
      var row := logs.rows[id];
      if row.status.Sent? || row.status.Delivered? || row.status.Read? {
        assert logs.rows == logs.rows[id := row];
        return Skipped;
      }
      match send {
        case Rejected(reason) =>
          logs.MarkFailed(id, reason);
          return Retry(reason);
        case Accepted(providerId) =>
          if commitError.Some? {
            logs.MarkFailed(id, commitError.value);
            return Retry(commitError.value);
          }
          logs.MarkSent(id, providerId, now);
          return Done;
      }
    }
  }

  datatype Value = Text(text: string) | NotText

  /** A webhook body: an object, or anything else. */
  datatype Payload = Record(fields: map<string, Value>) | NotARecord

  function ReadString(payload: map<string, Value>, key: string): Option<string> {
    if key in payload && payload[key].Text? && payload[key].text != "" then Some(payload[key].text) else None
  }

  function ExtractProviderId(payload: map<string, Value>): Option<string> {
    Coalesce(Coalesce(Coalesce(ReadString(payload, "message_uuid"), ReadString(payload, "request_id")),
                      ReadString(payload, "messageUuid")), ReadString(payload, "requestId"))
  }

  function LowerChar(c: char): char {
    if 'A' <= c <= 'Z' then ((c - 'A') as int + 'a' as int) as char else c
  }

  function Lower(s: string): string {
    seq(|s|, i requires 0 <= i < |s| => LowerChar(s[i]))
  }

  /** The receipt a payload stands for, if it is one of the three handled. */
  function ExtractReceipt(payload: map<string, Value>): Option<Receipt> {
    var raw := Coalesce(Coalesce(ReadString(payload, "eventName"), ReadString(payload, "status")),
                        ReadString(payload, "event_name"));
    if raw.None? then None
    else if Lower(raw.value) == "delivered" then Some(DeliveredReceipt)
    else if Lower(raw.value) == "read" then Some(ReadReceipt)
    else if Lower(raw.value) == "failed" then
      var reason := Coalesce(ReadString(payload, "failure_reason"), ReadString(payload, "reason"));
      Some(FailedReceipt(if reason.Some? then reason.value else "Delivery failed"))
    else None
  }

  // -------------------------------------------------------------------------
  // What a payload says
  // -------------------------------------------------------------------------

  predicate TextAt(payload: map<string, Value>, key: string, text: string) {
    key in payload && payload[key] == Text(text) && text != ""
  }

  /** The text is the first one the payload has under the keys, in their order. */
  ghost predicate FirstText(payload: map<string, Value>, keys: seq<string>, text: string) {
    exists k :: && 0 <= k < |keys| && TextAt(payload, keys[k], text)
                && forall j, other :: 0 <= j < k ==> !TextAt(payload, keys[j], other)
  }

  ghost predicate NoText(payload: map<string, Value>, keys: seq<string>) {
    forall k, text :: 0 <= k < |keys| ==> !TextAt(payload, keys[k], text)
  }

  /** The text spells the lower-case word, each letter in either case. */
  predicate Spells(text: string, word: string) {
    |text| == |word| && forall i :: 0 <= i < |text| ==> text[i] == word[i] || text[i] as int + 32 == word[i] as int
  }

  const ID_KEYS := ["message_uuid", "request_id", "messageUuid", "requestId"]
  const STATUS_KEYS := ["eventName", "status", "event_name"]
  const REASON_KEYS := ["failure_reason", "reason"]

  ghost predicate IsFor(payload: map<string, Value>, providerId: Option<string>) {
    providerId.Some? && FirstText(payload, ID_KEYS, providerId.value)
  }

  ghost predicate Says(payload: map<string, Value>, word: string) {
    exists text :: FirstText(payload, STATUS_KEYS, text) && Spells(text, word)
  }

  ghost predicate GivesReason(payload: map<string, Value>, reason: string) {
    FirstText(payload, REASON_KEYS, reason) || (NoText(payload, REASON_KEYS) && reason == "Delivery failed")
  }

  /** What a payload about a row makes of it. */
  ghost predicate Reported(payload: map<string, Value>, row: Row, row': Row, now: int) {
    var deliveredAt := if row.deliveredAt.Some? then row.deliveredAt else Some(now);
    var readAt := if row.readAt.Some? then row.readAt else Some(now);
    if Says(payload, "delivered") && (row.status.Queued? || row.status.Sent?) then
      row' == row.(status := Delivered, deliveredAt := deliveredAt)
    else if Says(payload, "read") && (row.status.Queued? || row.status.Sent? || row.status.Delivered?) then
      row' == row.(status := Read, deliveredAt := deliveredAt, readAt := readAt)
    else if Says(payload, "failed") && (row.status.Sent? || row.status.Delivered?) then
      exists reason :: GivesReason(payload, reason) && row' == row.(status := Failed, failure := Some(reason))
    else row' == row
  }

  lemma LowerSpells(text: string, word: string)
    requires forall i :: 0 <= i < |word| ==> 'a' <= word[i] <= 'z'
    ensures Lower(text) == word <==> Spells(text, word)
  {
  }

  lemma FirstOfTwo(payload: map<string, Value>, a: string, b: string)
    ensures var r := Coalesce(ReadString(payload, a), ReadString(payload, b));
            && (r.Some? ==> FirstText(payload, [a, b], r.value))
            && (r.None? ==> NoText(payload, [a, b]))
  {
    assert [a, b][0] == a && [a, b][1] == b;
  }

  /** One more key at the end is read only if none before it has a text. */
  lemma FirstOfMore(payload: map<string, Value>, keys: seq<string>, r: Option<string>, key: string)
    requires r.Some? ==> FirstText(payload, keys, r.value)
    requires r.None? ==> NoText(payload, keys)
    ensures var r' := Coalesce(r, ReadString(payload, key));
            && (r'.Some? ==> FirstText(payload, keys + [key], r'.value))
            && (r'.None? ==> NoText(payload, keys + [key]))
  {
    var more := keys + [key];
    if r.Some? {
      var k :| 0 <= k < |keys| && TextAt(payload, keys[k], r.value)
               && forall j, other :: 0 <= j < k ==> !TextAt(payload, keys[j], other);
      assert more[k] == keys[k];
    } else {
      assert more[|keys|] == key;
    }
  }

  lemma FirstTextUnique(payload: map<string, Value>, keys: seq<string>, text: string, text': string)
    requires FirstText(payload, keys, text)
    ensures !NoText(payload, keys)
    ensures FirstText(payload, keys, text') ==> text' == text
  {
  }

  /** A payload is read as being about the first id it has. */
  lemma ProviderIdRead(payload: map<string, Value>, providerId: Option<string>)
    ensures IsFor(payload, providerId) <==> providerId.Some? && ExtractProviderId(payload) == providerId
  {
    var two := Coalesce(ReadString(payload, "message_uuid"), ReadString(payload, "request_id"));
    FirstOfTwo(payload, "message_uuid", "request_id");
    FirstOfMore(payload, ["message_uuid", "request_id"], two, "messageUuid");
    FirstOfMore(payload, ["message_uuid", "request_id"] + ["messageUuid"],
                Coalesce(two, ReadString(payload, "messageUuid")), "requestId");
    assert ["message_uuid", "request_id"] + ["messageUuid"] + ["requestId"] == ID_KEYS;
    if IsFor(payload, providerId) {
      FirstTextUnique(payload, ID_KEYS, providerId.value, ExtractProviderId(payload).value);
    }
  }

  /** A payload is read as the receipt that it says. */
  lemma ReceiptSaid(payload: map<string, Value>)
    ensures var receipt := ExtractReceipt(payload);
            && (Says(payload, "delivered") <==> receipt == Some(DeliveredReceipt))
            && (Says(payload, "read") <==> receipt == Some(ReadReceipt))
            && (Says(payload, "failed") <==> receipt.Some? && receipt.value.FailedReceipt?)
            && (receipt.Some? && receipt.value.FailedReceipt? ==> GivesReason(payload, receipt.value.reason))
  {
    var two := Coalesce(ReadString(payload, "eventName"), ReadString(payload, "status"));
    var raw := Coalesce(two, ReadString(payload, "event_name"));
    FirstOfTwo(payload, "eventName", "status");
    FirstOfMore(payload, ["eventName", "status"], two, "event_name");
    assert ["eventName", "status"] + ["event_name"] == STATUS_KEYS;
    FirstOfTwo(payload, "failure_reason", "reason");
    if raw.Some? {
      WordRead(payload, raw.value, "delivered");
      WordRead(payload, raw.value, "read");
      WordRead(payload, raw.value, "failed");
    }
  }

  /** The receipt a payload is read as does to a row what the payload says about it. */
  lemma ReceiptRead(payload: map<string, Value>, row: Row, now: int)
    requires ExtractReceipt(payload).Some?
    ensures Reported(payload, row, Receive(row, ExtractReceipt(payload).value, now), now)
  {
    ReceiptSaid(payload);
  }

  lemma WordRead(payload: map<string, Value>, raw: string, word: string)
    requires FirstText(payload, STATUS_KEYS, raw)
    requires forall i :: 0 <= i < |word| ==> 'a' <= word[i] <= 'z'
    ensures Says(payload, word) <==> Lower(raw) == word
  {
    LowerSpells(raw, word);
    if text :| FirstText(payload, STATUS_KEYS, text) && Spells(text, word) {
      FirstTextUnique(payload, STATUS_KEYS, raw, text);
    }
  }

  class Msg91WebhookService {
    const logs: MessageLogRepository

    constructor (logs: MessageLogRepository)
      ensures this.logs == logs
    {
      this.logs := logs;
    }

    /** A receipt reaches at most one row, one that carries the first id in the payload,
        and makes of it what the payload says; a payload about no row changes nothing. */
    method HandleDeliveryStatus(payload: Payload, now: int)
      returns (touched: Option<nat>, updated: bool)
      modifies logs
      ensures touched.None? ==> logs.rows == old(logs.rows)
      ensures touched.None? <==>
        || payload.NotARecord?
        || !(Says(payload.fields, "delivered") || Says(payload.fields, "read") || Says(payload.fields, "failed"))
        || forall i :: 0 <= i < |old(logs.rows)| ==> !IsFor(payload.fields, old(logs.rows)[i].providerId)
      ensures touched.Some? ==>
        && payload.Record? && touched.value < |old(logs.rows)| == |logs.rows|
        && IsFor(payload.fields, old(logs.rows)[touched.value].providerId)
        && Reported(payload.fields, old(logs.rows)[touched.value], logs.rows[touched.value], now)
        && logs.rows == old(logs.rows)[touched.value := logs.rows[touched.value]]
      ensures updated <==> touched.Some? && logs.rows[touched.value].status != old(logs.rows)[touched.value].status
    {
      touched, updated := None, false;
      if payload.NotARecord? {
        return;
      }
      var providerId := ExtractProviderId(payload.fields);
      var receipt := ExtractReceipt(payload.fields);
      ReceiptSaid(payload.fields);
      forall i | 0 <= i < |logs.rows|
        ensures IsFor(payload.fields, logs.rows[i].providerId) <==>
                providerId.Some? && logs.rows[i].providerId == providerId
      {
        ProviderIdRead(payload.fields, logs.rows[i].providerId);
      }
      if providerId.None? || receipt.None? {
        return;
      }
      var id := logs.FindByProviderId(providerId.value);
      if id.None? {
        return;
      }
      touched := id;
      ReceiptRead(payload.fields, logs.rows[id.value], now);
      match receipt.value {
        case DeliveredReceipt => updated := logs.UpdateIfHigherRank(id.value, Delivered, Some(now), None);
        case ReadReceipt => updated := logs.UpdateIfHigherRank(id.value, Read, Some(now), Some(now));
        case FailedReceipt(reason) =>
          updated := logs.MarkFailedFromWebhook(id.value, reason);
      }
    }
  }

  // -------------------------------------------------------------------------
  // Worker attempts and webhooks interleaved
  // -------------------------------------------------------------------------

  /** A worker attempt between its read and its write. */
  datatype Worker = Sending | MarkingSent(providerId: string) | MarkingFailed(reason: string)

  /** A webhook between its lookup and its write. */
  datatype Hook = Hook(log: nat, receipt: Receipt)

  /** At most one attempt per log is under way; webhooks are as many as arrive. */
  datatype World = World(rows: seq<Row>, workers: map<nat, Worker>, hooks: map<nat, Hook>)

  const START := World([], map[], map[])

  datatype Move =
    | Enqueue
    | WorkerReads(log: nat)
    | WorkerSends(log: nat, result: SendResult)
    | SentCommits(log: nat, now: int)
    | SentThrows(log: nat, reason: string)  // the write did not commit
    | FailedCommits(log: nat)
    | WorkerStops(log: nat)
    | HookFinds(hook: nat, log: nat, receipt: Receipt)
    | HookWrites(hook: nat, now: int)

  predicate Possible(w: World, m: Move) {
    match m
    case Enqueue => true
    case WorkerReads(log) => log < |w.rows| && log !in w.workers
    case WorkerSends(log, _) => log in w.workers && w.workers[log].Sending?
    case SentCommits(log, _) => log < |w.rows| && log in w.workers && w.workers[log].MarkingSent?
    case SentThrows(log, _) => log in w.workers && w.workers[log].MarkingSent?
    case FailedCommits(log) => log < |w.rows| && log in w.workers && w.workers[log].MarkingFailed?
    case WorkerStops(log) => log in w.workers
    case HookFinds(hook, log, _) => hook !in w.hooks && log < |w.rows| && w.rows[log].providerId.Some?
    case HookWrites(hook, _) => hook in w.hooks && w.hooks[hook].log < |w.rows|
  }

  function Do(w: World, m: Move): World
    requires Possible(w, m)
  {
    match m
    case Enqueue => w.(rows := w.rows + [QUEUED_ROW])
    case WorkerReads(log) =>
      var status := w.rows[log].status;
      if status.Sent? || status.Delivered? || status.Read? then w else w.(workers := w.workers[log := Sending])
    case WorkerSends(log, result) =>
      w.(workers := w.workers[log :=
        match result case Accepted(id) => MarkingSent(id) case Rejected(reason) => MarkingFailed(reason)])
    case SentCommits(log, now) =>
      World(w.rows[log := AsSent(w.rows[log], w.workers[log].providerId, now)], w.workers - {log}, w.hooks)
    case SentThrows(log, reason) => w.(workers := w.workers[log := MarkingFailed(reason)])
    case FailedCommits(log) =>
      World(w.rows[log := AsFailed(w.rows[log], w.workers[log].reason)], w.workers - {log}, w.hooks)
    case WorkerStops(log) => w.(workers := w.workers - {log})
    case HookFinds(hook, log, receipt) => w.(hooks := w.hooks[hook := Hook(log, receipt)])
    case HookWrites(hook, now) =>
      var h := w.hooks[hook];
      World(w.rows[h.log := Receive(w.rows[h.log], h.receipt, now)], w.workers, w.hooks - {hook})
  }

  predicate PossibleAll(w: World, moves: seq<Move>)
    decreases |moves|
  {
    moves == [] || (Possible(w, moves[0]) && PossibleAll(Do(w, moves[0]), moves[1..]))
  }

  function DoAll(w: World, moves: seq<Move>): World
    requires PossibleAll(w, moves)
    decreases |moves|
  {
    if moves == [] then w else DoAll(Do(w, moves[0]), moves[1..])
  }

  /** The moves of one whole worker attempt. */
  function AttemptMoves(row: Row, log: nat, send: SendResult, commitError: Option<string>, now: int): seq<Move> {
    if row.status.Sent? || row.status.Delivered? || row.status.Read? then [WorkerReads(log)]
    else if send.Rejected? then [WorkerReads(log), WorkerSends(log, send), FailedCommits(log)]
    else if commitError.None? then [WorkerReads(log), WorkerSends(log, send), SentCommits(log, now)]
    else
      [WorkerReads(log), WorkerSends(log, send), SentThrows(log, commitError.value), FailedCommits(log)]
  }

  lemma TwoMoves(w: World, m: Move, m': Move)
    requires Possible(w, m) && Possible(Do(w, m), m')
    ensures PossibleAll(w, [m, m']) && DoAll(w, [m, m']) == Do(Do(w, m), m')
  {
    assert [m, m'][1..] == [m'] && [m'][1..] == [];
    assert PossibleAll(Do(Do(w, m), m'), []);
    assert PossibleAll(Do(w, m), [m']) && DoAll(Do(w, m), [m']) == Do(Do(w, m), m');
  }

  lemma ThreeMoves(w: World, m: Move, m': Move, m'': Move)
    requires Possible(w, m) && Possible(Do(w, m), m') && Possible(Do(Do(w, m), m'), m'')
    ensures PossibleAll(w, [m, m', m'']) && DoAll(w, [m, m', m'']) == Do(Do(Do(w, m), m'), m'')
  {
    TwoMoves(Do(w, m), m', m'');
    assert [m, m', m''][1..] == [m', m''];
  }

  lemma FourMoves(w: World, m: Move, m': Move, m'': Move, m''': Move)
    requires Possible(w, m) && Possible(Do(w, m), m') && Possible(Do(Do(w, m), m'), m'')
    requires Possible(Do(Do(Do(w, m), m'), m''), m''')
    ensures PossibleAll(w, [m, m', m'', m'''])
         && DoAll(w, [m, m', m'', m''']) == Do(Do(Do(Do(w, m), m'), m''), m''')
  {
    ThreeMoves(Do(w, m), m', m'', m''');
    assert [m, m', m'', m'''][1..] == [m', m'', m'''];
  }

  /** Left alone, the moves of an attempt do to its row what the uninterrupted worker does. */
  lemma AttemptUninterrupted(w: World, log: nat, send: SendResult, commitError: Option<string>, now: int)
    requires log < |w.rows| && log !in w.workers
    ensures var moves := AttemptMoves(w.rows[log], log, send, commitError, now);
            && PossibleAll(w, moves)
            && DoAll(w, moves).rows == w.rows[log := Attempt(w.rows[log], send, commitError, now)]
            && DoAll(w, moves).workers == w.workers && DoAll(w, moves).hooks == w.hooks
  {
    var row, read, sending := w.rows[log], WorkerReads(log), WorkerSends(log, send);
    if !(row.status.Sent? || row.status.Delivered? || row.status.Read?) {
      if send.Rejected? {
        ThreeMoves(w, read, sending, FailedCommits(log));
      } else if commitError.None? {
        ThreeMoves(w, read, sending, SentCommits(log, now));
      } else {
        FourMoves(w, read, sending, SentThrows(log, commitError.value), FailedCommits(log));
      }
    }
  }

  /** Left alone, a webhook's two moves do to the row they found what one receipt does. */
  lemma HookUninterrupted(w: World, log: nat, hook: nat, receipt: Receipt, now: int)
    requires log < |w.rows| && w.rows[log].providerId.Some? && hook !in w.hooks
    ensures var moves := [HookFinds(hook, log, receipt), HookWrites(hook, now)];
            && PossibleAll(w, moves)
            && DoAll(w, moves) == w.(rows := w.rows[log := Receive(w.rows[log], receipt, now)])
  {
    var found := Do(w, HookFinds(hook, log, receipt));
    assert Do(found, HookWrites(hook, now)).hooks == w.hooks;
    TwoMoves(w, HookFinds(hook, log, receipt), HookWrites(hook, now));
  }

  /** What every row of the log satisfies. */
  predicate RowOk(row: Row) {
    && (row.status.Queued? ==> row.providerId.None? && row.deliveredAt.None?)
    && (row.status.Sent? || row.status.Delivered? || row.status.Read? ==> row.providerId.Some?)
    && (row.sentAt.Some? <==> row.providerId.Some?)
    && (row.deliveredAt.Some? ==> row.providerId.Some?)
    && (row.status.Delivered? || row.status.Read? ==> row.deliveredAt.Some?)
    && (row.status.Read? <==> row.readAt.Some?)
    && (row.status.Failed? ==> row.failure.Some?)
  }

  ghost predicate WorldInv(w: World) {
    && (forall i :: 0 <= i < |w.rows| ==> RowOk(w.rows[i]))
    && (forall log :: log in w.workers ==>
          log < |w.rows| && (w.rows[log].status.Queued? || w.rows[log].status.Failed?))
    && (forall hook :: hook in w.hooks ==>
          w.hooks[hook].log < |w.rows| && w.rows[w.hooks[hook].log].providerId.Some?)
  }

  predicate EdgeAllowed(from: Status, to: Status) {
    match from
    case Queued => to.Sent? || to.Failed?
    case Sent => to.Delivered? || to.Read? || to.Failed?
    case Delivered => to.Read? || to.Failed?
    case Failed => to.Sent? || to.Failed?
    case Read => false
  }

  /** How a row may differ after a step. */
  predicate RowMoves(row: Row, row': Row) {
    || row' == row
    || (&& EdgeAllowed(row.status, row'.status)
        && (row.deliveredAt.Some? ==> row'.deliveredAt == row.deliveredAt)
        && (row.readAt.Some? ==> row'.readAt == row.readAt))
  }

  lemma WorkerMoveKeeps(w: World, m: Move)
    requires WorldInv(w) && Possible(w, m) && !m.HookFinds? && !m.HookWrites?
    ensures WorldInv(Do(w, m)) && |w.rows| <= |Do(w, m).rows|
    ensures forall i :: 0 <= i < |w.rows| ==> RowMoves(w.rows[i], Do(w, m).rows[i])
  {
  }

  lemma HookMoveKeeps(w: World, m: Move)
    requires WorldInv(w) && Possible(w, m) && (m.HookFinds? || m.HookWrites?)
    ensures WorldInv(Do(w, m)) && |w.rows| <= |Do(w, m).rows|
    ensures forall i :: 0 <= i < |w.rows| ==> RowMoves(w.rows[i], Do(w, m).rows[i])
  {
  }

  lemma MoveKeeps(w: World, m: Move)
    requires WorldInv(w) && Possible(w, m)
    ensures WorldInv(Do(w, m)) && |w.rows| <= |Do(w, m).rows|
    ensures forall i :: 0 <= i < |w.rows| ==> RowMoves(w.rows[i], Do(w, m).rows[i])
  {
    if m.HookFinds? || m.HookWrites? {
      HookMoveKeeps(w, m);
    } else {
      WorkerMoveKeeps(w, m);
    }
  }

  ghost predicate StepAt(run: seq<World>, i: nat)
    requires i + 1 < |run|
  {
    exists m :: Possible(run[i], m) && run[i + 1] == Do(run[i], m)
  }

  ghost predicate IsRun(run: seq<World>) {
    && |run| > 0 && run[0] == START
    && forall i :: 0 <= i < |run| - 1 ==> StepAt(run, i)
  }

  lemma {:induction false} RunKeepsInvariant(run: seq<World>, k: nat)
    requires IsRun(run) && k < |run|
    ensures WorldInv(run[k])
  {
    if k == 0 {
    } else {
      RunKeepsInvariant(run, k - 1);
      assert StepAt(run, k - 1);
      var m :| Possible(run[k - 1], m) && run[k] == Do(run[k - 1], m);
      MoveKeeps(run[k - 1], m);
    }
  }

  /** The worker's unconditional writes only ever hit rows that are queued or failed. */
  lemma WorkerWritesAreSafe(run: seq<World>, k: nat, log: nat)
    requires IsRun(run) && k < |run| && log in run[k].workers
    ensures log < |run[k].rows| && (run[k].rows[log].status.Queued? || run[k].rows[log].status.Failed?)
  {
    RunKeepsInvariant(run, k);
  }

  /** Timestamps and provider ids are there whenever the status needs them. A failed
      row may have any of them but the read time, and a row sent again after a failure
      keeps its delivery time. */
  lemma StatusHasItsFields(run: seq<World>, k: nat, log: nat)
    requires IsRun(run) && k < |run| && log < |run[k].rows|
    ensures var row := run[k].rows[log];
            && (row.status.Queued? ==> row.providerId.None? && row.deliveredAt.None?)
            && (row.status.Sent? || row.status.Delivered? || row.status.Read? ==> row.providerId.Some?)
            && (row.sentAt.Some? <==> row.providerId.Some?)
            && (row.deliveredAt.Some? ==> row.providerId.Some?)
            && (row.status.Delivered? || row.status.Read? ==> row.deliveredAt.Some?)
            && (row.status.Read? <==> row.readAt.Some?)
  {
    RunKeepsInvariant(run, k);
    assert RowOk(run[k].rows[log]);
  }

  /** One step moves a row along the allowed edges only: from queued just to sent or
      failed, and from read nowhere. */
  lemma RowsFollowTheEdges(run: seq<World>, k: nat, log: nat)
    requires IsRun(run) && k + 1 < |run| && log < |run[k].rows|
    ensures log < |run[k + 1].rows| && RowMoves(run[k].rows[log], run[k + 1].rows[log])
  {
    RunKeepsInvariant(run, k);
    assert StepAt(run, k);
    var m :| Possible(run[k], m) && run[k + 1] == Do(run[k], m);
    MoveKeeps(run[k], m);
  }

  /** A read row never changes again, and delivery and read times are written once. */
  lemma {:induction false} ReadIsForever(run: seq<World>, i: nat, j: nat, log: nat)
    requires IsRun(run) && i <= j < |run| && log < |run[i].rows|
    ensures log < |run[j].rows|
    ensures var row, row' := run[i].rows[log], run[j].rows[log];
            && (row.status.Read? ==> row' == row)
            && (row.deliveredAt.Some? ==> row'.deliveredAt == row.deliveredAt)
            && (row.readAt.Some? ==> row'.readAt == row.readAt)
            && (row'.status.Queued? ==> row.status.Queued?)
    decreases j - i
  {
    if i == j {
    } else {
      ReadIsForever(run, i, j - 1, log);
      RowsFollowTheEdges(run, j - 1, log);
    }
  }
}
