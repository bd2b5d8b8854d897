/**
 * The producer (producer.js): for every appointment row it computes how long
 * the reminder must wait in the broker, builds the reminder message, and
 * publishes it to the ActiveMQ queue with an AMQ_SCHEDULED_DELAY header when
 * that wait is strictly positive; once the rows are used up it deactivates
 * the STOMP client.
 *
 * Times are integer milliseconds. The wall clock is not read by the model:
 * the caller supplies the clock reading taken when each row is handled. An
 * appointment time that moment cannot parse is an absent value; the delay
 * computed from it is NaN, which no comparison with 0 lets through.
 */
module Producer {
  import opened Wrappers
  import opened Text

  /** The reminder is sent this many minutes before the appointment. */
  const LeadTimeInMinutes: nat := 15
  const LeadTimeInMilliseconds: int := LeadTimeInMinutes * 60 * 1000

  const Destination: string := "/queue/foo.bar"
  const ContentType: string := "application/json"

  /**
   * One row of the appointments file; appointmentMs is None when moment
   * cannot parse the date value (null, the empty string, an unparsable
   * string). A missing field makes moment use the current time, which the
   * caller passes as Some(now).
   */
  datatype Row = Row(name: string, phone: string, appointmentMs: Option<int>)

  /** The JavaScript numbers the delay arithmetic can produce: integers, or NaN. */
  datatype JsNumber = Finite(value: int) | NaN

  /** `n > 0` in JavaScript: false for NaN. */
  predicate IsPositive(n: JsNumber) {
    n.Finite? && n.value > 0
  }

  /** The object that is serialised into a message body. */
  datatype MqData = MqData(to: string, body: string)

  /** One STOMP SEND frame as handed to the client's publish. */
  datatype Frame = Frame(destination: string, body: string, contentType: string, scheduledDelay: JsNumber)

  // ---------------------------------------------------------------------
  // Delay arithmetic
  // ---------------------------------------------------------------------

  /** Milliseconds from now until the appointment, less the lead time; NaN for an unparsed date. */
  function ToDelayFromDate(appointmentMs: Option<int>, nowMs: int): JsNumber {
    match appointmentMs
    case None => NaN
    case Some(t) => Finite((t - nowMs) - LeadTimeInMilliseconds)
  }

  /** The instant at which the reminder is due. */
  function ScheduledTime(appointmentMs: int): int {
    appointmentMs - LeadTimeInMilliseconds
  }

  lemma DelayIsTimeToAppointmentLessFifteenMinutes(appointmentMs: int, nowMs: int)
    ensures ToDelayFromDate(Some(appointmentMs), nowMs) == Finite(appointmentMs - nowMs - 900000)
    ensures nowMs + ToDelayFromDate(Some(appointmentMs), nowMs).value == ScheduledTime(appointmentMs)
    ensures IsPositive(ToDelayFromDate(Some(appointmentMs), nowMs)) <==> ScheduledTime(appointmentMs) > nowMs
  {
  }

  /** An appointment time that does not parse gives NaN, which never passes the gate. */
  lemma UnparsedDateGivesNaN(nowMs: int)
    ensures ToDelayFromDate(None, nowMs) == NaN
    ensures !IsPositive(ToDelayFromDate(None, nowMs))
  {
  }

  // ---------------------------------------------------------------------
  // The message
  // ---------------------------------------------------------------------

  const Greeting: string := "Hello "
  const Middle: string := ", you have an appointment with us in "
  const Closing: string := " minutes. See you soon."

  /** The reminder text for the person called `name`. */
  function ReminderBody(name: string): string {
    Greeting + name + Middle + DecimalString(LeadTimeInMinutes) + Closing
  }

  /**
   * The reminder text names the person and states the lead time in minutes,
   * written in decimal without leading zeros.
   */
  lemma ReminderBodyParts(name: string)
    ensures ReminderBody(name)
      == "Hello " + name + ", you have an appointment with us in 15 minutes. See you soon."
    ensures var b := ReminderBody(name);
      var p := |Greeting| + |name| + |Middle|;
      var q := |b| - |Closing|;
      && b[..|Greeting|] == Greeting
      && b[|Greeting|..|Greeting| + |name|] == name
      && b[|Greeting| + |name|..p] == Middle
      && p <= q && ParseDecimal(b[p..q]) == Some(LeadTimeInMinutes)
      && (q - p > 1 ==> b[p] != '0')
      && b[q..] == Closing
  {
    var b := ReminderBody(name);
    var p := |Greeting| + |name| + |Middle|;
    var q := |b| - |Closing|;
    assert b[p..q] == DecimalString(LeadTimeInMinutes);
    DecimalRoundTrip(LeadTimeInMinutes);
  }

  /** The message built for a row: its phone number and its reminder text. */
  function MessageFor(row: Row): MqData {
    MqData(row.phone, ReminderBody(row.name))
  }

  const ToKey: string := "{\"to\":"
  const BodyKey: string := ",\"body\":"

  /** JSON.stringify of an MqData object; keys in insertion order, no spaces. */
  function Serialize(m: MqData): string {
    ToKey + Quote(m.to) + BodyKey + Quote(m.body) + "}"
  }

  /** Reads back a message body of the form Serialize writes. */
  function ParseMqData(s: string): Option<MqData> {
    match StripPrefix(ToKey, s)
    case None => None
    case Some(t0) =>
      match ParseQuoted(t0)
      case None => None
      case Some((to, t1)) =>
        match StripPrefix(BodyKey, t1)
        case None => None
        case Some(t2) =>
          match ParseQuoted(t2)
          case None => None
          case Some((body, t3)) => if t3 == "}" then Some(MqData(to, body)) else None
  }

  /** A published body determines the message it was made from. */
  lemma SerializeRoundTrip(m: MqData)
    ensures ParseMqData(Serialize(m)) == Some(m)
  {
    var t2 := Quote(m.body) + "}";
    var t1 := BodyKey + t2;
    var t0 := Quote(m.to) + t1;
    assert Serialize(m) == ToKey + t0;
    StripPrefixOfConcat(ToKey, t0);
    QuoteRoundTrip(m.to, t1);
    StripPrefixOfConcat(BodyKey, t2);
    QuoteRoundTrip(m.body, "}");
  }

  // ---------------------------------------------------------------------
  // What a batch publishes
  // ---------------------------------------------------------------------

  /** The gate of the publish step: the computed delay is strictly positive. */
  predicate Eligible(row: Row, nowMs: int) {
    IsPositive(ToDelayFromDate(row.appointmentMs, nowMs))
  }

  /** The frame published for an eligible row handled at time nowMs. */
  function FrameFor(row: Row, nowMs: int): Frame {
    Frame(Destination, Serialize(MessageFor(row)), ContentType, ToDelayFromDate(row.appointmentMs, nowMs))
  }

  /** Every published frame goes to the queue as JSON, delayed by the row's positive delay. */
  lemma FrameForIsWellFormed(row: Row, nowMs: int)
    requires Eligible(row, nowMs)
    ensures var f := FrameFor(row, nowMs);
      && f.destination == "/queue/foo.bar"
      && f.contentType == "application/json"
      && f.scheduledDelay == ToDelayFromDate(row.appointmentMs, nowMs)
      && f.scheduledDelay.Finite? && f.scheduledDelay.value > 0
      && ParseMqData(f.body) == Some(MqData(row.phone, ReminderBody(row.name)))
  {
    SerializeRoundTrip(MessageFor(row));
  }

  /**
   * The frames a batch publishes, in order: rows[i] is handled at nows[i]
   * and contributes its frame exactly when it is eligible.
   */
  function Planned(rows: seq<Row>, nows: seq<int>): seq<Frame>
    requires |rows| == |nows|
  {
    if |rows| == 0 then []
    else
      var n := |rows| - 1;
      Planned(rows[..n], nows[..n]) + (if Eligible(rows[n], nows[n]) then [FrameFor(rows[n], nows[n])] else [])
  }

  /** The positions of the eligible rows, in increasing order. */
  function EligibleIndices(rows: seq<Row>, nows: seq<int>): seq<nat>
    requires |rows| == |nows|
  {
    if |rows| == 0 then []
    else
      var n := |rows| - 1;
      EligibleIndices(rows[..n], nows[..n]) + (if Eligible(rows[n], nows[n]) then [n] else [])
  }

  /** The eligible positions are positions of rows, strictly increasing. */
  lemma {:induction false} EligibleIndicesIncreasing(rows: seq<Row>, nows: seq<int>)
    requires |rows| == |nows|
    ensures forall k :: 0 <= k < |EligibleIndices(rows, nows)| ==> EligibleIndices(rows, nows)[k] < |rows|
    ensures forall k, l :: 0 <= k < l < |EligibleIndices(rows, nows)| ==>
      EligibleIndices(rows, nows)[k] < EligibleIndices(rows, nows)[l]
  {
    if |rows| > 0 {
      var n := |rows| - 1;
      EligibleIndicesIncreasing(rows[..n], nows[..n]);
      var idx0 := EligibleIndices(rows[..n], nows[..n]);
      var idx := EligibleIndices(rows, nows);
      assert idx == idx0 + (if Eligible(rows[n], nows[n]) then [n] else []);
      assert forall k :: 0 <= k < |idx0| ==> idx[k] == idx0[k] < n;
    }
  }

  /** A position is listed exactly when the row there is eligible. */
  lemma {:induction false} EligibleIndicesExact(rows: seq<Row>, nows: seq<int>)
    requires |rows| == |nows|
    ensures forall i :: 0 <= i < |rows| ==> (Eligible(rows[i], nows[i]) <==> i in EligibleIndices(rows, nows))
  {
    if |rows| > 0 {
      var n := |rows| - 1;
      EligibleIndicesExact(rows[..n], nows[..n]);
      EligibleIndicesIncreasing(rows[..n], nows[..n]);
      var idx0 := EligibleIndices(rows[..n], nows[..n]);
      assert n !in idx0;
      forall i | 0 <= i < n
        ensures Eligible(rows[i], nows[i]) <==> i in EligibleIndices(rows, nows)
      {
        assert rows[..n][i] == rows[i] && nows[..n][i] == nows[i];
      }
    }
  }

  /** The k-th published frame is the frame of the k-th eligible row. */
  lemma {:induction false} PlannedFollowsEligibleIndices(rows: seq<Row>, nows: seq<int>)
    requires |rows| == |nows|
    ensures var idx := EligibleIndices(rows, nows);
      && |Planned(rows, nows)| == |idx|
      && (forall k :: 0 <= k < |idx| ==> idx[k] < |rows| && Planned(rows, nows)[k] == FrameFor(rows[idx[k]], nows[idx[k]]))
  {
    EligibleIndicesIncreasing(rows, nows);
    if |rows| > 0 {
      var n := |rows| - 1;
      PlannedFollowsEligibleIndices(rows[..n], nows[..n]);
      EligibleIndicesIncreasing(rows[..n], nows[..n]);
      var idx0 := EligibleIndices(rows[..n], nows[..n]);
      var p0 := Planned(rows[..n], nows[..n]);
      forall k | 0 <= k < |idx0|
        ensures Planned(rows, nows)[k] == FrameFor(rows[idx0[k]], nows[idx0[k]])
      {
        assert Planned(rows, nows)[k] == p0[k];
        assert rows[..n][idx0[k]] == rows[idx0[k]] && nows[..n][idx0[k]] == nows[idx0[k]];
      }
    }
  }

  /**
   * Exactly the eligible rows are published, each once, in input order: the
   * k-th published frame is the frame of the k-th eligible row.
   */
  lemma PlannedIsEligibleRowsInOrder(rows: seq<Row>, nows: seq<int>)
    requires |rows| == |nows|
    ensures var idx := EligibleIndices(rows, nows);
      && |Planned(rows, nows)| == |idx|
      && (forall k :: 0 <= k < |idx| ==> idx[k] < |rows| && Planned(rows, nows)[k] == FrameFor(rows[idx[k]], nows[idx[k]]))
      && (forall k, l :: 0 <= k < l < |idx| ==> idx[k] < idx[l])
      && (forall i :: 0 <= i < |rows| ==> (Eligible(rows[i], nows[i]) <==> i in idx))
  {
    EligibleIndicesIncreasing(rows, nows);
    EligibleIndicesExact(rows, nows);
    PlannedFollowsEligibleIndices(rows, nows);
  }

  /** Every frame of a batch is a well-formed, strictly delayed reminder for its row. */
  lemma PlannedFramesAreWellFormed(rows: seq<Row>, nows: seq<int>)
    requires |rows| == |nows|
    ensures var idx := EligibleIndices(rows, nows);
      forall k :: 0 <= k < |Planned(rows, nows)| ==>
        var f := Planned(rows, nows)[k];
        && k < |idx| && idx[k] < |rows|
        && f.destination == Destination && f.contentType == ContentType
        && f.scheduledDelay.Finite? && f.scheduledDelay.value > 0
        && ParseMqData(f.body) == Some(MessageFor(rows[idx[k]]))
  {
    PlannedIsEligibleRowsInOrder(rows, nows);
    var idx := EligibleIndices(rows, nows);
    forall k | 0 <= k < |idx|
      ensures Eligible(rows[idx[k]], nows[idx[k]])
    {
      assert idx[k] in idx;
    }
    forall k | 0 <= k < |idx|
      ensures ParseMqData(FrameFor(rows[idx[k]], nows[idx[k]]).body) == Some(MessageFor(rows[idx[k]]))
    {
      FrameForIsWellFormed(rows[idx[k]], nows[idx[k]]);
    }
  }

  /** An appointment 20 minutes away is published with a 5-minute delay; one 5 minutes away is dropped. */
  lemma TwentyAndFiveMinutesAhead(a: Row, b: Row, nowMs: int)
    requires a.appointmentMs == Some(nowMs + 20 * 60 * 1000)
    requires b.appointmentMs == Some(nowMs + 5 * 60 * 1000)
    ensures Planned([a, b], [nowMs, nowMs]) == [FrameFor(a, nowMs)]
    ensures FrameFor(a, nowMs).scheduledDelay == Finite(5 * 60 * 1000)
  {
    assert [a, b][..1] == [a] && [nowMs, nowMs][..1] == [nowMs];
    assert [a][..0] == [] && [nowMs][..0] == [];
    assert !Eligible(b, nowMs) && Eligible(a, nowMs);
    assert Planned([a], [nowMs]) == [FrameFor(a, nowMs)];
  }

  // ---------------------------------------------------------------------
  // The STOMP client and the row array, as the producer changes them
  // ---------------------------------------------------------------------

  /** The broker as seen from the producer: the frames published and the connection state. */
  class StompClient {
    var active: bool
    var published: seq<Frame>
    var deactivations: nat

    constructor ()
      ensures !active && published == [] && deactivations == 0
    {
      active := false;
      published := [];
      deactivations := 0;
    }

    method Activate()
      modifies this
      ensures active
      ensures published == old(published) && deactivations == old(deactivations)
    {
      active := true;
    }

    /** The client only publishes over an open connection. */
    method Publish(f: Frame)
      requires active
      modifies this
      ensures active && published == old(published) + [f]
      ensures deactivations == old(deactivations)
    {
      published := published + [f];
    }

    method Deactivate()
      modifies this
      ensures !active && deactivations == old(deactivations) + 1
      ensures published == old(published)
    {
      active := false;
      deactivations := deactivations + 1;
    }
  }

  /** The array of rows that the batch consumes with shift(). */
  class RowArray {
    var items: seq<Row>

    constructor (rows: seq<Row>)
      ensures items == rows
    {
      items := rows;
    }

    method Shift() returns (row: Row)
      requires |items| > 0
      modifies this
      ensures row == old(items)[0] && items == old(items)[1..]
    {
      row := items[0];
      items := items[1..];
    }
  }

  /**
   * publishToQueue: takes rows off the front of `data` one at a time,
   * publishes the eligible ones, and deactivates the client once `data` is
   * empty. nows[i] is the clock reading when the i-th row is handled. The
   * self-call that ends each step of the source is the loop's next iteration.
   */
  method PublishToQueue(data: RowArray, client: StompClient, nows: seq<int>)
    requires client.active
    requires |nows| == |data.items|
    modifies data, client
    ensures data.items == []
    ensures client.published == old(client.published) + Planned(old(data.items), nows)
    ensures !client.active && client.deactivations == old(client.deactivations) + 1
  {
    ghost var rows := data.items;
    ghost var log0 := client.published;
    var i := 0;
    while |data.items| != 0
      invariant 0 <= i <= |rows| && data.items == rows[i..]
      invariant client.active && client.deactivations == old(client.deactivations)
      invariant client.published == log0 + Planned(rows[..i], nows[..i])
      decreases |data.items|
    {
      var row := data.Shift();
      var mqData := MqData(row.phone, ReminderBody(row.name));
      var now := nows[i];
      if IsPositive(ToDelayFromDate(row.appointmentMs, now)) {
        client.Publish(Frame(Destination, Serialize(mqData), ContentType, ToDelayFromDate(row.appointmentMs, now)));
      }
      assert rows[..i + 1][..i] == rows[..i] && nows[..i + 1][..i] == nows[..i];
      i := i + 1;
    }
    assert rows[..i] == rows && nows[..i] == nows;
    client.Deactivate();
  }

  /**
   * The producer's top level once the rows are loaded: activate the client
   * and, once it is connected, publish the rows.
   */
  method LoadAndPublish(rows: seq<Row>, nows: seq<int>) returns (client: StompClient, data: RowArray)
    requires |nows| == |rows|
    ensures fresh(client) && fresh(data)
    ensures data.items == []
    ensures client.published == Planned(rows, nows)
    ensures !client.active && client.deactivations == 1
  {
    client := new StompClient();
    data := new RowArray(rows);
    client.Activate();
    PublishToQueue(data, client, nows);
  }
}
