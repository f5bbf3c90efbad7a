/**
 * Dead letters and their replay: publishToDlq (AgentActor.ts) and its inverse, replayDlq
 * (resilience/dlq-replay.ts).
 */
module DeadLetters {
  import opened Budget
  import opened Utf8
  import opened JsonCaps
  import Actor

  const MAX_DLQ_TEXT_BYTES := 4_096

  const STATUS: Text := Codes("status")
  const ERROR: Text := Codes("error")
  const REASON: Text := Codes("reason")
  const OMITTED: Text := Codes("_inputs_omitted")

  /** The envelope of a dead letter, stripped before replay. */
  const FAILURE_ENVELOPE_FIELDS: set<Text> := {STATUS, ERROR, REASON, TRUNCATED, OMITTED}

  /** The names differ in their length, except three that differ in their first letter. */
  lemma EnvelopeNames()
    ensures STATUS != ERROR && STATUS != REASON && ERROR != REASON && OMITTED != STATUS && OMITTED != ERROR &&
            OMITTED != REASON
  {
    assert |STATUS| == 6 && |REASON| == 6 && |ERROR| == 5 && |OMITTED| == 15;
    assert STATUS[0] == 's' as int && REASON[0] == 'r' as int;
  }

  /** The failure fields: the free texts are cut, an empty reason is left out. */
  function Failure(error: Text, reason: Text): Object {
    var base: Object :=
      map[STATUS := Str(Codes("failed")), ERROR := Str(Truncated(error, MAX_DLQ_TEXT_BYTES))];
    if reason == [] then base else base[REASON := Str(Truncated(reason, MAX_DLQ_TEXT_BYTES))]
  }

  /** The failure fields win on a clash. */
  function WithInputs(data: Object, error: Text, reason: Text): Object {
    data + Failure(error, reason)
  }

  ghost predicate Fits(data: Object, error: Text, reason: Text) {
    JsonBytes(WithInputs(data, error, reason)) <= MAX_PUBLISH_DATA_LEN
  }

  /** The data of the record: the task's inputs under the failure fields, or marked as omitted when too large. */
  ghost function DeadLetter(data: Object, error: Text, reason: Text): Object {
    if Fits(data, error, reason) then WithInputs(data, error, reason)
    else Failure(error, reason)[OMITTED := Flag(true)]
  }

  /** publishToDlq up to the publish. */
  method BuildDeadLetter(data: Object, error: Text, reason: Text) returns (record: Object)
    ensures record == DeadLetter(data, error, reason)
    ensures JsonBytes(record) <= 65_536
  {
    var text := TruncateToBytes(error, MAX_DLQ_TEXT_BYTES);
    var failure: Object := map[STATUS := Str(Codes("failed")), ERROR := Str(text)];
    if reason != [] {
      var why := TruncateToBytes(reason, MAX_DLQ_TEXT_BYTES);
      failure := failure[REASON := Str(why)];
    }
    var withInputs := data + failure;
    var size := MeasureJson(withInputs);
    record := if size <= MAX_PUBLISH_DATA_LEN then withInputs else failure[OMITTED := Flag(true)];
    DeadLetterWithinCap(data, error, reason);
  }

  lemma FieldBound(k: Text, t: Text)
    requires |k| <= 15
    ensures FieldSize(k, Str(t)) <= 95 + 6 * ByteLen(t)
    ensures FieldSize(k, Flag(true)) <= 97
  {
    EscapedBounds(k);
    EscapedBounds(t);
  }

  lemma TwoFields(a: Text, va: Value, b: Text, vb: Value)
    requires a != b
    ensures JsonBytes(map[a := va, b := vb]) <= 4 + FieldSize(a, va) + FieldSize(b, vb)
  {
    var none: Object := map[];
    assert JsonBytes(none) == 2;
    hide FieldSize, JsonBytes;
    AddField(none, a, va);
    AddField(none[a := va], b, vb);
    assert none[a := va][b := vb] == map[a := va, b := vb];
  }

  lemma FailureSize(error: Text, reason: Text)
    ensures JsonBytes(Failure(error, reason)) <= MAX_PUBLISH_DATA_LEN - 98
  {
    hide Truncated, JsonBytes, Encode, FieldSize;
    var e, r := Truncated(error, MAX_DLQ_TEXT_BYTES), Truncated(reason, MAX_DLQ_TEXT_BYTES);
    TruncatedMeetsCap(error, MAX_DLQ_TEXT_BYTES);
    TruncatedMeetsCap(reason, MAX_DLQ_TEXT_BYTES);
    EnvelopeNames();
    var failed := Codes("failed");
    assert |STATUS| == 6 && |REASON| == 6 && |ERROR| == 5 && |failed| == 6;
    hide Codes;
    FourBytes(failed);
    FieldBound(STATUS, failed);
    FieldBound(ERROR, e);
    FieldBound(REASON, r);
    TwoFields(STATUS, Str(failed), ERROR, Str(e));
    if reason != [] {
      AddField(map[STATUS := Str(failed), ERROR := Str(e)], REASON, Str(r));
    }
  }

  lemma MarkedSize(error: Text, reason: Text)
    ensures JsonBytes(Failure(error, reason)[OMITTED := Flag(true)]) <= MAX_PUBLISH_DATA_LEN
  {
    FailureSize(error, reason);
    EnvelopeNames();
    assert |OMITTED| == 15;
    FieldBound(OMITTED, []);
    assert OMITTED !in Failure(error, reason);
    AddField(Failure(error, reason), OMITTED, Flag(true));
  }

  lemma {:induction false} FourBytes(t: Text)
    ensures ByteLen(t) <= 4 * |t|
  {
    if t != [] { FourBytes(t[1..]); }
  }

  /** Every dead letter is within the cap, for any error, reason and inputs; one without inputs is never marked. */
  lemma DeadLetterWithinCap(data: Object, error: Text, reason: Text)
    ensures JsonBytes(DeadLetter(data, error, reason)) <= 65_536
    ensures data == map[] ==> Fits(data, error, reason)
  {
    FailureSize(error, reason);
    MarkedSize(error, reason);
    if data == map[] {
      assert WithInputs(data, error, reason) == Failure(error, reason);
    }
  }

  // ----- Replay -----

  /** restoreOriginalData: every field that is not part of the envelope. */
  function Restored(data: Object): Object {
    data - FAILURE_ENVELOPE_FIELDS
  }

  method RestoreOriginalData(data: Object) returns (out: Object)
    ensures out == Restored(data)
  {
    out := map[];
    var open := data.Keys;
    while open != {}
      invariant open <= data.Keys
      invariant out == (map k | k in data.Keys && k !in open && k !in FAILURE_ENVELOPE_FIELDS :: data[k])
      decreases open
    {
      var k :| k in open;
      if k !in FAILURE_ENVELOPE_FIELDS {
        out := out[k := data[k]];
      }
      open := open - {k};
    }
  }

  /**
   * The dead-letter round trip: replay restores exactly the task's data if and only if the record
   * kept the inputs and no input has the name of an envelope field.
   */
  lemma RoundTrip(data: Object, error: Text, reason: Text)
    ensures Restored(DeadLetter(data, error, reason)) == data <==>
            Fits(data, error, reason) && data.Keys !! FAILURE_ENVELOPE_FIELDS
    ensures Fits(data, error, reason) ==> Restored(DeadLetter(data, error, reason)) == Restored(data)
  {
    DeadLetterWithinCap(data, error, reason);
    var r := Restored(DeadLetter(data, error, reason));
    assert Failure(error, reason).Keys <= FAILURE_ENVELOPE_FIELDS;
    if Fits(data, error, reason) {
      assert r == Restored(data);
      if data.Keys !! FAILURE_ENVELOPE_FIELDS {
        assert r == data;
      } else {
        var k :| k in data.Keys && k in FAILURE_ENVELOPE_FIELDS;
        assert k !in r;
      }
    } else {
      assert r == map[];
    }
  }

  // ----- What replayDlq does with a list of records -----

  /** A record off the queue; `trace` are its trace headers, if any. */
  datatype Record = Record(taskId: nat, agentId: nat, data: Object, trace: Option<nat>)

  datatype Message = Message(queue: nat, taskId: nat, agentId: nat, timestamp: int, data: Object, trace: Option<nat>)

  datatype Skip = Skip(taskId: nat, reason: Text)

  datatype Verdict = Poison | InputsMissing | Replayable

  const DLQ_INPUTS_MISSING: Text := Codes("inputs_missing")

  /** `String(data.error ?? "")`. */
  function ErrorText(data: Object): Text {
    if ERROR !in data || data[ERROR] == Null then [] else Shown(data, ERROR)
  }

  function Judge(data: Object, poison: set<Text>): Verdict {
    if ErrorText(data) in poison then Poison
    else if (OMITTED in data && data[OMITTED] == Flag(true)) || Restored(data) == map[] then InputsMissing
    else Replayable
  }

  datatype Report = Report(replayed: nat, skipped: nat, skippedReasons: seq<Skip>)

  /** Why a record is skipped, if it is. */
  function SkipFor(r: Record, poison: set<Text>): Option<Skip> {
    match Judge(r.data, poison)
    case Replayable => None
    case Poison => Some(Skip(r.taskId, ErrorText(r.data)))
    case InputsMissing => Some(Skip(r.taskId, DLQ_INPUTS_MISSING))
  }

  function Skips(records: seq<Record>, poison: set<Text>): seq<Skip> {
    if records == [] then []
    else
      var skip := SkipFor(records[|records| - 1], poison);
      Skips(records[..|records| - 1], poison) + if skip.Some? then [skip.value] else []
  }

  function MessageFor(r: Record, queueFor: nat -> nat, now: int): Message {
    Message(queueFor(r.agentId), r.taskId, r.agentId, now, Restored(r.data), r.trace)
  }

  /** The messages republished, in order; `clock` is the time read for the record at a position. */
  function Republished(records: seq<Record>, poison: set<Text>, queueFor: nat -> nat, clock: nat -> int): seq<Message> {
    if records == [] then []
    else
      var n := |records| - 1;
      var last := records[n];
      Republished(records[..n], poison, queueFor, clock) +
      if Judge(last.data, poison).Replayable? then
        [MessageFor(last, queueFor, clock(n))]
      else []
  }

  /** A record that is published successfully, or not at all. */
  predicate PassesAt(records: seq<Record>, poison: set<Text>, delivers: nat -> bool, i: nat)
    requires i < |records|
  {
    Judge(records[i].data, poison).Replayable? ==> delivers(i)
  }

  /** What one more record adds to both lists. */
  lemma OneMore(records: seq<Record>, poison: set<Text>, queueFor: nat -> nat, clock: nat -> int, i: nat)
    requires i < |records|
    ensures var skip := SkipFor(records[i], poison);
            Skips(records[..i + 1], poison) == Skips(records[..i], poison) + if skip.Some? then [skip.value] else []
    ensures Republished(records[..i + 1], poison, queueFor, clock) ==
            Republished(records[..i], poison, queueFor, clock) +
            if Judge(records[i].data, poison).Replayable? then [MessageFor(records[i], queueFor, clock(i))] else []
  {
    hide Judge, MessageFor;
    assert records[..i + 1][..i] == records[..i];
  }

  /** The first n records are handled: republished or skipped, in order, and none of them failed to be published. */
  ghost predicate Handled(records: seq<Record>, poison: set<Text>, queueFor: nat -> nat, clock: nat -> int,
                          delivers: nat -> bool, n: nat, published: seq<Message>, skips: seq<Skip>) {
    && n <= |records|
    && published == Republished(records[..n], poison, queueFor, clock) && skips == Skips(records[..n], poison)
    && |published| + |skips| == n
    && forall i :: 0 <= i < n ==> PassesAt(records, poison, delivers, i)
  }

  lemma HandleOne(records: seq<Record>, poison: set<Text>, queueFor: nat -> nat, clock: nat -> int,
                  delivers: nat -> bool, n: nat, published: seq<Message>, skips: seq<Skip>)
    requires n < |records| && Handled(records, poison, queueFor, clock, delivers, n, published, skips)
    ensures var r := records[n];
            var skip, message := SkipFor(r, poison), MessageFor(r, queueFor, clock(n));
            if skip.Some? then
              Handled(records, poison, queueFor, clock, delivers, n + 1, published, skips + [skip.value])
            else if delivers(n) then
              Handled(records, poison, queueFor, clock, delivers, n + 1, published + [message], skips)
            else !PassesAt(records, poison, delivers, n)
  {
    OneMore(records, poison, queueFor, clock, n);
    hide Judge, MessageFor, Republished, Skips, ErrorText;
  }

  lemma AllHandled(records: seq<Record>, poison: set<Text>, queueFor: nat -> nat, clock: nat -> int,
                   delivers: nat -> bool, n: nat, published: seq<Message>, skips: seq<Skip>)
    requires Handled(records, poison, queueFor, clock, delivers, n, published, skips)
    ensures n <= |records| && published == Republished(records[..n], poison, queueFor, clock)
    ensures forall i :: 0 <= i < n ==> PassesAt(records, poison, delivers, i)
    ensures n == |records| ==> skips == Skips(records, poison) && |published| + |skips| == |records|
  {
    assert records[..|records|] == records;
    hide PassesAt, Republished, Skips;
  }

  /** The guards of the loop: poison first, then missing inputs. */
  lemma GuardsDecide(r: Record, poison: set<Text>)
    ensures SkipFor(r, poison) ==
            if ErrorText(r.data) in poison then Some(Skip(r.taskId, ErrorText(r.data)))
            else if (OMITTED in r.data && r.data[OMITTED] == Flag(true)) || Restored(r.data) == map[] then
              Some(Skip(r.taskId, DLQ_INPUTS_MISSING))
            else None
  {
    hide Restored, ErrorText;
  }

  /**
   * Replay in order.  `delivers` says whether the publish for a record at a position succeeds.  When
   * all do, every record is replayed or skipped; the first publish that fails ends the replay with
   * exactly the records before it handled.
   */
  method ReplayDlq(records: seq<Record>, poison: set<Text>, queueFor: nat -> nat, clock: nat -> int,
                   delivers: nat -> bool)
    returns (report: Option<Report>, handled: nat, published: seq<Message>)
    ensures handled <= |records| && published == Republished(records[..handled], poison, queueFor, clock)
    ensures forall i :: 0 <= i < handled ==> PassesAt(records, poison, delivers, i)
    ensures report.Some? <==> handled == |records|
    ensures report.None? ==> !PassesAt(records, poison, delivers, handled)
    ensures report.Some? ==>
              && report.value.skippedReasons == Skips(records, poison)
              && report.value.replayed == |published| && report.value.skipped == |report.value.skippedReasons|
              && report.value.replayed + report.value.skipped == |records|
  {
    var replayed, skipped, skippedReasons := 0, 0, [];
    published, handled := [], 0;
    assert Handled(records, poison, queueFor, clock, delivers, 0, [], []);
    hide Handled, PassesAt, Judge, SkipFor, Restored, ErrorText, Codes;
    while handled < |records|
      invariant handled <= |records| && replayed == |published| && skipped == |skippedReasons|
      invariant Handled(records, poison, queueFor, clock, delivers, handled, published, skippedReasons)
    {
      var record := records[handled];
      HandleOne(records, poison, queueFor, clock, delivers, handled, published, skippedReasons);
      GuardsDecide(record, poison);
      var original := RestoreOriginalData(record.data);
      if ErrorText(record.data) in poison {
        skipped, skippedReasons := skipped + 1, skippedReasons + [Skip(record.taskId, ErrorText(record.data))];
      } else if (OMITTED in record.data && record.data[OMITTED] == Flag(true)) || original == map[] {
        skipped, skippedReasons := skipped + 1, skippedReasons + [Skip(record.taskId, DLQ_INPUTS_MISSING)];
      } else {
        if !delivers(handled) {
          AllHandled(records, poison, queueFor, clock, delivers, handled, published, skippedReasons);
          return None, handled, published;
        }
        published := published + [Message(queueFor(record.agentId), record.taskId, record.agentId, clock(handled),
                                          original, record.trace)];
        replayed := replayed + 1;
      }
      handled := handled + 1;
    }
    AllHandled(records, poison, queueFor, clock, delivers, handled, published, skippedReasons);
    report := Some(Report(replayed, skipped, skippedReasons));
  }

  /** The message carries the record's ids and trace, the queue of its agent and the time, and its own inputs. */
  ghost predicate Carries(m: Message, r: Record, queueFor: nat -> nat, now: int) {
    && m.taskId == r.taskId && m.agentId == r.agentId && m.trace == r.trace
    && m.queue == queueFor(r.agentId) && m.timestamp == now
    && (forall k :: k in m.data <==>
          k in r.data && k !in {Codes("status"), Codes("error"), Codes("reason"), Codes("_truncated"),
                                Codes("_inputs_omitted")})
    && forall k <- m.data :: m.data[k] == r.data[k]
  }

  /**
   * What is republished comes from a replayable record: its ids and trace headers, the queue of its
   * agent, the time of the replay, and its fields apart from the envelope, at least one of them.
   */
  lemma {:induction false} RepublishedFrom(
      records: seq<Record>, poison: set<Text>, queueFor: nat -> nat, clock: nat -> int, m: Message)
    requires m in Republished(records, poison, queueFor, clock)
    ensures exists i :: 0 <= i < |records| && Judge(records[i].data, poison).Replayable? &&
              Carries(m, records[i], queueFor, clock(i))
    ensures m.data != map[] && m.data.Keys !! FAILURE_ENVELOPE_FIELDS
  {
    var n := |records| - 1;
    if m in Republished(records[..n], poison, queueFor, clock) {
      RepublishedFrom(records[..n], poison, queueFor, clock, m);
      var i :| 0 <= i < n && Judge(records[..n][i].data, poison).Replayable? &&
        Carries(m, records[..n][i], queueFor, clock(i));
      assert records[..n][i] == records[i];
    } else {
      assert Judge(records[n].data, poison).Replayable?;
      assert Carries(m, records[n], queueFor, clock(n));
    }
    hide Carries, Codes;
  }

  /** What is skipped, and why: a poison error by its own text, anything else as `inputs_missing`. */
  lemma {:induction false} SkippedBecause(records: seq<Record>, poison: set<Text>, s: Skip)
    requires s in Skips(records, poison)
    ensures exists r :: r in records && s.taskId == r.taskId && SaysWhy(r.data, poison, s.reason)
  {
    var n := |records| - 1;
    if s in Skips(records[..n], poison) {
      SkippedBecause(records[..n], poison, s);
      var r :| r in records[..n] && s.taskId == r.taskId && SaysWhy(r.data, poison, s.reason);
      assert r in records;
    } else {
      assert records[n] in records && SaysWhy(records[n].data, poison, s.reason);
    }
    hide SaysWhy;
  }

  /** The reason of a skip, for an error that is a text, null or missing. */
  ghost predicate SaysWhy(data: Object, poison: set<Text>, reason: Text) {
    var error := Codes("error");
    var text := if error in data && data[error].Str? then data[error].text else [];
    (error in data ==> data[error].Str? || data[error].Null?) ==>
      reason == if text in poison then text else Codes("inputs_missing")
  }

  /** The fields of a dead letter: it failed, with its error and any reason cut, over the task's inputs. */
  lemma LetterSays(data: Object, error: Text, reason: Text)
    ensures var d := DeadLetter(data, error, reason);
            && Codes("status") in d && d[Codes("status")] == Str(Codes("failed"))
            && Codes("error") in d && d[Codes("error")] == Str(Truncated(error, 4_096))
            && (reason != [] ==> Codes("reason") in d && d[Codes("reason")] == Str(Truncated(reason, 4_096)))
            && (Fits(data, error, reason) ==>
                  forall k <- data ::
                    k !in {Codes("status"), Codes("error")} && (k != Codes("reason") || reason == []) ==>
                      k in d && d[k] == data[k])
            && (!Fits(data, error, reason) ==>
                  && Codes("_inputs_omitted") in d && d[Codes("_inputs_omitted")] == Flag(true)
                  && forall k <- d :: k in {Codes("status"), Codes("error"), Codes("reason"), Codes("_inputs_omitted")})
  {
    EnvelopeNames();
    hide Codes, Truncated, Fits;
  }

  // ----- Which dead letters come back -----

  /** Short codes, as every poison reason is. */
  predicate ShortTexts(texts: set<Text>) {
    forall t <- texts :: ByteLen(t) <= MAX_DLQ_TEXT_BYTES - 4
  }

  /** Cutting the error text never makes or hides a poison reason. */
  lemma CutKeepsPoison(error: Text, poison: set<Text>)
    requires ShortTexts(poison)
    ensures Truncated(error, MAX_DLQ_TEXT_BYTES) in poison <==> error in poison
  {
    TruncatedMeetsCap(error, MAX_DLQ_TEXT_BYTES);
  }

  lemma LetterFields(data: Object, error: Text, reason: Text)
    ensures var d := DeadLetter(data, error, reason);
            && ErrorText(d) == Truncated(error, MAX_DLQ_TEXT_BYTES)
            && (OMITTED in d && d[OMITTED] == Flag(true) <==> !Fits(data, error, reason) || Marked(data))
  {
    hide Encode, Codes, Fits, Truncated, JsonBytes;
    EnvelopeNames();
  }

  /** The inputs themselves carry the mark of omitted inputs. */
  predicate Marked(data: Object) {
    OMITTED in data && data[OMITTED] == Flag(true)
  }

  /**
   * A dead letter is replayed exactly when its error, as cut, is no poison, its inputs were kept and do
   * not themselves carry the mark of omitted ones, and there are inputs apart from the envelope; so a
   * record whose inputs were omitted is never republished.
   */
  lemma ReplayedExactlyWhen(data: Object, error: Text, reason: Text, poison: set<Text>)
    ensures Judge(DeadLetter(data, error, reason), poison).Replayable? <==>
            && Truncated(error, MAX_DLQ_TEXT_BYTES) !in poison
            && Fits(data, error, reason) && !Marked(data) && Restored(data) != map[]
    ensures ShortTexts(poison) ==> (Truncated(error, MAX_DLQ_TEXT_BYTES) in poison <==> error in poison)
  {
    hide Encode, Codes, Fits, Restored, Truncated, JsonBytes, ShortTexts;
    if ShortTexts(poison) { CutKeepsPoison(error, poison); }
    RoundTrip(data, error, reason);
    LetterFields(data, error, reason);
    hide DeadLetter, ErrorText;
  }

  /** One failure of a task: its error and its reason. */
  datatype Cause = Cause(error: Text, reason: Text)

  /** The task's data after each failure was dead-lettered and replayed; none once a replay skips it. */
  ghost function Cycle(data: Object, causes: seq<Cause>, poison: set<Text>): Option<Object> {
    if causes == [] then Some(data)
    else
      var letter := DeadLetter(data, causes[0].error, causes[0].reason);
      if Judge(letter, poison).Replayable? then Cycle(Restored(letter), causes[1..], poison) else None
  }

  /** Any number of fail and replay cycles is lossless. */
  lemma {:induction false} CyclesAreLossless(data: Object, causes: seq<Cause>, poison: set<Text>)
    requires ShortTexts(poison) && data != map[] && data.Keys !! FAILURE_ENVELOPE_FIELDS
    requires forall c <- causes :: c.error !in poison && Fits(data, c.error, c.reason)
    ensures Cycle(data, causes, poison) == Some(data)
  {
    if causes != [] {
      var c := causes[0];
      assert Restored(data) == data;
      ReplayedExactlyWhen(data, c.error, c.reason, poison);
      RoundTrip(data, c.error, c.reason);
      CyclesAreLossless(data, causes[1..], poison);
    }
  }

  /** The reasons that end a task for good; the codes of the stops and of a timeout are none of them. */
  const DLQ_POISON_REASONS: set<Text> :=
    {Codes("blocked_by_semantic_firewall"), Codes("circuit_breaker_open"), Codes("budget_exceeded"),
     Codes("task_token_budget_exceeded")}

  /**
   * A task dead-lettered by an emergency stop survives it: its record is not poison, and replayed
   * after the stop, with a new timestamp, the actor does not refuse it as sent before the stop.
   */
  lemma StoppedTaskCanBeReplayed(data: Object, reason: Text, s: Actor.State, moment: int, now: int)
    requires data != map[] && data.Keys !! FAILURE_ENVELOPE_FIELDS && Fits(data, Codes("emergency_stop"), reason)
    requires s.cutoff == Actor.Since(moment) && !s.stopping && now > moment
    ensures Judge(DeadLetter(data, Codes("emergency_stop"), reason), DLQ_POISON_REASONS).Replayable?
    ensures Restored(DeadLetter(data, Codes("emergency_stop"), reason)) == data
    ensures Actor.Receive(s, Actor.At(now), true).phase.Guarding?
  {
    assert Restored(data) == data;
    var stop := Codes("emergency_stop");
    PoisonIsShort();
    StopsAreNoPoison();
    hide Codes, Encode, Fits, Truncated, Judge;
    ReplayedExactlyWhen(data, stop, reason, DLQ_POISON_REASONS);
    RoundTrip(data, stop, reason);
  }

  lemma StopsAreNoPoison()
    ensures Codes("emergency_stop") !in DLQ_POISON_REASONS && Codes("actor_stopped") !in DLQ_POISON_REASONS
    ensures Codes("task_timeout") !in DLQ_POISON_REASONS
  {
    assert |Codes("emergency_stop")| == 14 && |Codes("actor_stopped")| == 13 && |Codes("task_timeout")| == 12;
    assert |Codes("blocked_by_semantic_firewall")| == 28 && |Codes("circuit_breaker_open")| == 20;
    assert |Codes("budget_exceeded")| == 15 && |Codes("task_token_budget_exceeded")| == 26;
  }

  lemma PoisonIsShort()
    ensures ShortTexts(DLQ_POISON_REASONS)
  {
    forall t | t in DLQ_POISON_REASONS ensures ByteLen(t) <= MAX_DLQ_TEXT_BYTES - 4 {
      assert |Codes("blocked_by_semantic_firewall")| == 28 && |Codes("circuit_breaker_open")| == 20;
      assert |Codes("budget_exceeded")| == 15 && |Codes("task_token_budget_exceeded")| == 26;
      FourBytes(t);
    }
  }
}
