/** The requests as bytes: the size estimate behind the batching, against the Protocol Buffers encoding
    ("Base 128 Varints" and "Length-Delimited Records"). As in C++, a char stands for one byte. */
module Wire {
  import opened Types
  import opened Batching

  // ----- Encoding ------------------------------------------------------------------------------

  function Varint(n: nat): string {
    if n < 128 then [n as char] else [(n % 128 + 128) as char] + Varint(n / 128)
  }

  function Tag(field: nat, wireType: nat): char
    requires field <= 15 && wireType < 8
  {
    (8 * field + wireType) as char
  }

  /** A length-delimited record. */
  function Record(field: nat, payload: string): string
    requires field <= 15
  {
    [Tag(field, 2)] + Varint(|payload|) + payload
  }

  function Records(field: nat, payloads: seq<string>): string
    requires field <= 15
  {
    if payloads == [] then [] else Record(field, payloads[0]) + Records(field, payloads[1..])
  }

  /** A singular string field is left out when empty; a singular number when zero. */
  function Subscription(name: string): string {
    if name == [] then [] else Record(1, name)
  }

  function Seconds(deadline: nat): string {
    if deadline == 0 then [] else [Tag(3, 0)] + Varint(deadline)
  }

  function Acknowledge(subscription: string, ids: seq<AckId>): string {
    Subscription(subscription) + Records(2, ids)
  }

  function ModifyAckDeadline(subscription: string, deadline: nat, ids: seq<AckId>): string {
    Subscription(subscription) + Seconds(deadline) + Records(4, ids)
  }

  // ----- Decoding ------------------------------------------------------------------------------

  function ReadVarint(bytes: string): (r: Option<(nat, string)>)
    ensures r.Some? ==> |r.value.1| < |bytes|
  {
    if bytes == [] then None
    else if bytes[0] as int < 128 then Some((bytes[0] as int, bytes[1..]))
    else match ReadVarint(bytes[1..])
      case None => None
      case Some((n, rest)) => Some(((bytes[0] as int) % 128 + 128 * n, rest))
  }

  /** What a reader finds who knows nothing but the encoding: the number and the value of each field, in order. */
  datatype Field = Text(number: nat, bytes: string) | Number(number: nat, value: nat)

  /** For field numbers below 16. */
  function ReadFields(bytes: string): Option<seq<Field>>
    decreases |bytes|
  {
    if bytes == [] then Some([])
    else
      var number, wireType := bytes[0] as int / 8, bytes[0] as int % 8;
      if bytes[0] as int >= 128 || (wireType != 0 && wireType != 2) then None
      else match ReadVarint(bytes[1..])
        case None => None
        case Some((n, rest)) =>
          if wireType == 0 then More(Number(number, n), ReadFields(rest))
          else if |rest| < n then None
          else More(Text(number, rest[..n]), ReadFields(rest[n..]))
  }

  function More(first: Field, rest: Option<seq<Field>>): Option<seq<Field>> {
    if rest == None then None else Some([first] + rest.value)
  }

  function Texts(number: nat, payloads: seq<string>): seq<Field> {
    seq(|payloads|, i requires 0 <= i < |payloads| => Text(number, payloads[i]))
  }

  lemma {:induction false} VarintRoundTrip(n: nat, rest: string)
    ensures ReadVarint(Varint(n) + rest) == Some((n, rest))
  {
    if n < 128 {
      assert (Varint(n) + rest)[1..] == rest;
    } else {
      assert (Varint(n) + rest)[1..] == Varint(n / 128) + rest;
      VarintRoundTrip(n / 128, rest);
    }
  }

  lemma RecordRead(field: nat, payload: string, tail: string)
    requires field <= 15
    ensures ReadFields(Record(field, payload) + tail) == More(Text(field, payload), ReadFields(tail))
  {
    var bytes := Record(field, payload) + tail;
    assert bytes[1..] == Varint(|payload|) + (payload + tail);
    VarintRoundTrip(|payload|, payload + tail);
    assert (payload + tail)[..|payload|] == payload && (payload + tail)[|payload|..] == tail;
  }

  /** The ack ids of a request can be read back, whatever bytes they hold. */
  lemma {:induction false} RecordsRoundTrip(field: nat, payloads: seq<string>)
    requires field <= 15
    ensures ReadFields(Records(field, payloads)) == Some(Texts(field, payloads))
  {
    if payloads != [] {
      RecordRead(field, payloads[0], Records(field, payloads[1..]));
      RecordsRoundTrip(field, payloads[1..]);
      assert [Text(field, payloads[0])] + Texts(field, payloads[1..]) == Texts(field, payloads);
    } else {
      assert Texts(field, payloads) == [];
    }
  }

  lemma NumberRead(field: nat, n: nat, tail: string)
    requires field <= 15
    ensures ReadFields([Tag(field, 0)] + Varint(n) + tail) == More(Number(field, n), ReadFields(tail))
  {
    var bytes := [Tag(field, 0)] + Varint(n) + tail;
    assert bytes[1..] == Varint(n) + tail;
    VarintRoundTrip(n, tail);
    hide Varint, ReadVarint;
  }

  lemma SecondsRead(deadline: nat, tail: string, fields: seq<Field>)
    requires ReadFields(tail) == Some(fields)
    ensures ReadFields(Seconds(deadline) + tail)
            == Some((if deadline == 0 then [] else [Number(3, deadline)]) + fields)
  {
    hide ReadFields, Varint;
    if deadline == 0 {
      assert Seconds(deadline) + tail == tail && [] + fields == fields;
    } else {
      NumberRead(3, deadline, tail);
    }
  }

  lemma SubscriptionRead(name: string, tail: string, fields: seq<Field>)
    requires ReadFields(tail) == Some(fields)
    ensures ReadFields(Subscription(name) + tail) == Some((if name == [] then [] else [Text(1, name)]) + fields)
  {
    if name == [] {
      assert Subscription(name) + tail == tail && [] + fields == fields;
    } else {
      RecordRead(1, name, tail);
    }
  }

  /** A request to acknowledge has the subscription in field 1 and the ids in field 2; a string that is empty, or a
      number that is zero, is left out. */
  lemma AcknowledgeRoundTrip(subscription: string, ids: seq<AckId>)
    ensures ReadFields(Acknowledge(subscription, ids))
            == Some((if subscription == [] then [] else [Text(1, subscription)]) + Texts(2, ids))
  {
    RecordsRoundTrip(2, ids);
    SubscriptionRead(subscription, Records(2, ids), Texts(2, ids));
  }

  /** One to modify deadlines has the subscription in field 1, the deadline in field 3 and the ids in field 4. */
  lemma ModifyAckDeadlineRoundTrip(subscription: string, deadline: nat, ids: seq<AckId>)
    ensures ReadFields(ModifyAckDeadline(subscription, deadline, ids))
            == Some((if subscription == [] then [] else [Text(1, subscription)])
                    + ((if deadline == 0 then [] else [Number(3, deadline)]) + Texts(4, ids)))
  {
    RecordsRoundTrip(4, ids);
    InThreeParts(subscription, deadline, ids);
    hide ReadFields, Records, Texts, Subscription, Seconds, ModifyAckDeadline;
    SecondsRead(deadline, Records(4, ids), Texts(4, ids));
    SubscriptionRead(subscription, Seconds(deadline) + Records(4, ids),
                     (if deadline == 0 then [] else [Number(3, deadline)]) + Texts(4, ids));
  }

  lemma InThreeParts(subscription: string, deadline: nat, ids: seq<AckId>)
    ensures ModifyAckDeadline(subscription, deadline, ids)
            == Subscription(subscription) + (Seconds(deadline) + Records(4, ids))
  {
    hide Subscription, Seconds, Records;
  }

  // ----- The estimate against the encoding -----------------------------------------------------

  ghost predicate ShortIds(ids: seq<AckId>) {
    forall id :: id in ids ==> |id| < 16384
  }

  lemma VarintSize(n: nat)
    ensures n < 128 ==> |Varint(n)| == 1
    ensures 128 <= n < 16384 ==> |Varint(n)| == 2
    ensures 1 <= |Varint(n)|
    ensures |Varint(n)| == 1 ==> n < 128
  {
    if n >= 128 {
      assert |Varint(n)| == 1 + |Varint(n / 128)|;
    }
  }

  lemma {:induction false} RecordsSize(field: nat, ids: seq<AckId>)
    requires field <= 15 && ShortIds(ids)
    ensures |Records(field, ids)| <= Weight(ids)
    ensures (forall id :: id in ids ==> 128 <= |id|) ==> |Records(field, ids)| == Weight(ids)
  {
    if ids != [] {
      VarintSize(|ids[0]|);
      RecordsSize(field, ids[1..]);
    }
  }

  /** Different ids that leave the estimate no slack: their records take exactly what the limit leaves beside 101
      bytes. */
  lemma TightestBatch() returns (ids: seq<AckId>)
    ensures ShortIds(ids) && Distinct(ids) && (forall id :: id in ids ==> 128 <= |id|)
    ensures Fits(ids, MAX_PAYLOAD) && REQ_FIXED_OVERHEAD + Weight(ids) == MAX_PAYLOAD - 1
  {
    var longs: seq<AckId> := seq(31, i requires 0 <= i < 31 => [i as char] + seq(16382, _ => 'a'));
    var last: AckId := seq(16218, _ => 'a');
    assert Distinct(longs) by {
      assert forall i :: 0 <= i < 31 ==> longs[i][0] == i as char;
    }
    AlikeWeigh(longs, 16383);
    TimesIs(31, 16386);
    assert Weight([last]) == 16221;
    WeightAppend(longs, [last]);
    ids := longs + [last];
    assert forall i :: 0 <= i < 31 ==> |longs[i]| != |last|;
  }

  lemma {:induction false} AlikeWeigh(ids: seq<AckId>, length: nat)
    requires forall i :: 0 <= i < |ids| ==> |ids[i]| == length
    ensures Weight(ids) == Times(|ids|, OVERHEAD_PER_ID + length)
  {
    if ids != [] {
      AlikeWeigh(ids[1..], length);
    }
  }

  lemma {:induction false} TimesIs(n: nat, c: nat)
    ensures Times(n, c) == n * c
  {
    if n > 0 {
      TimesIs(n - 1, c);
    }
  }

  /** What the client can put into one request: different ids, as they come from a set, within the limit. */
  ghost predicate InOneRequest(ids: seq<AckId>) {
    ShortIds(ids) && Distinct(ids) && Fits(ids, MAX_PAYLOAD)
  }

  /** Whatever precedes the ids, the estimate is right for all batches exactly when that takes at most 100 bytes. */
  lemma HeaderDecides(header: string, field: nat)
    requires field <= 15
    ensures (forall ids | InOneRequest(ids) :: |header + Records(field, ids)| < MAX_PAYLOAD)
            <==> |header| <= 100
  {
    if |header| <= 100 {
      forall ids | InOneRequest(ids)
        ensures |header + Records(field, ids)| < MAX_PAYLOAD
      {
        RecordsSize(field, ids);
      }
    } else {
      var ids := TightestBatch();
      RecordsSize(field, ids);
      assert |header + Records(field, ids)| >= MAX_PAYLOAD;
    }
  }

  /** With ids shorter than 16384 bytes, every batch makes an Acknowledge request smaller than the payload limit
      exactly when the subscription name has at most 98 bytes. */
  lemma AcknowledgeEstimateSound(subscription: string)
    ensures (forall ids | InOneRequest(ids) :: |Acknowledge(subscription, ids)| < MAX_PAYLOAD)
            <==> |subscription| <= 98
  {
    VarintSize(|subscription|);
    HeaderDecides(Subscription(subscription), 2);
  }

  /** For ModifyAckDeadline the deadline takes up to three of these bytes: none when zero, two below 128 seconds. */
  lemma ModifyAckDeadlineEstimateSound(subscription: string, deadline: nat)
    requires deadline <= 600
    ensures (forall ids | InOneRequest(ids) ::
               |ModifyAckDeadline(subscription, deadline, ids)| < MAX_PAYLOAD)
            <==> |subscription| <= (if deadline == 0 then 98 else if deadline < 128 then 96 else 95)
  {
    VarintSize(|subscription|);
    VarintSize(deadline);
    HeaderDecides(Subscription(subscription) + Seconds(deadline), 4);
  }
}
