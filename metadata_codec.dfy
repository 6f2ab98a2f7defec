/**
 * The topic entry of the Metadata response (API key 3, version 0 of the Apache
 * Kafka protocol), big-endian:
 *   topic error: int16, topic name: string, partition count: int32,
 *   then per partition: error: int16, id: int32, leader: int32,
 *   replica count: int32 and replica ids: int32 each, isr count: int32 and isr ids: int32 each.
 */
module MetadataCodec {
  import opened Wrappers
  import opened Wire
  import opened WireArrays
  import opened Metadata

  /** A partition every field of which fits its wire width. */
  predicate ValidPartition(p: PartitionMetadata)
  {
    && IsInt16(p.error) && IsInt32(p.id) && IsInt32(p.leader)
    && |p.replicas| <= INT32_MAX && (forall x :: x in p.replicas ==> IsInt32(x))
    && |p.isr| <= INT32_MAX && (forall x :: x in p.isr ==> IsInt32(x))
  }

  /** A topic every field of which fits its wire width. */
  predicate ValidTopic(t: TopicMetadata)
  {
    && IsInt16(t.error) && IsWireString(t.name)
    && |t.partitions| <= INT32_MAX && (forall p :: p in t.partitions ==> ValidPartition(p))
  }

  // Encoding

  function EncodePartition(p: PartitionMetadata): seq<Byte>
  {
    EncodeInt16(p.error) + EncodeInt32(p.id) + EncodeInt32(p.leader)
      + EncodeArray(EncodeInt32, p.replicas) + EncodeArray(EncodeInt32, p.isr)
  }

  function EncodeTopic(t: TopicMetadata): seq<Byte>
  {
    EncodeInt16(t.error) + EncodeString(t.name) + EncodeArray(EncodePartition, t.partitions)
  }

  // Decoding: each decoder returns the value and the bytes after it.

  function DecodePartition(s: seq<Byte>): Option<(PartitionMetadata, seq<Byte>)>
  {
    match DecodeInt16(s)
    case None => None
    case Some((error, s1)) =>
      match DecodeInt32(s1)
      case None => None
      case Some((id, s2)) =>
        match DecodeInt32(s2)
        case None => None
        case Some((leader, s3)) =>
          match DecodeArray(DecodeInt32, s3)
          case None => None
          case Some((replicas, s4)) =>
            match DecodeArray(DecodeInt32, s4)
            case None => None
            case Some((isr, s5)) => Some((PartitionMetadata(error, id, leader, replicas, isr), s5))
  }

  function DecodeTopic(s: seq<Byte>): Option<(TopicMetadata, seq<Byte>)>
  {
    match DecodeInt16(s)
    case None => None
    case Some((error, s1)) =>
      match DecodeString(s1)
      case None => None
      case Some((name, s2)) =>
        match DecodeArray(DecodePartition, s2)
        case None => None
        case Some((ps, s3)) => Some((TopicMetadata(error, name, ps), s3))
  }

  // Round trips: decoding what was encoded gives back the value and exactly the bytes after it.

  lemma Int32ArrayRoundTrip(xs: seq<int>, rest: seq<Byte>)
    requires |xs| <= INT32_MAX && forall x :: x in xs ==> IsInt32(x)
    ensures DecodeArray(DecodeInt32, EncodeArray(EncodeInt32, xs) + rest) == Some((xs, rest))
  {
    forall i | 0 <= i < |xs|
      ensures RoundTrips(DecodeInt32, EncodeInt32, xs[i])
    {
      assert xs[i] in xs;
      forall r: seq<Byte> ensures DecodeInt32(EncodeInt32(xs[i]) + r) == Some((xs[i], r)) {
        Int32RoundTrip(xs[i], r);
      }
    }
    ArrayRoundTrip(DecodeInt32, EncodeInt32, xs, rest);
  }

  lemma PartitionRoundTrip(p: PartitionMetadata, rest: seq<Byte>)
    requires ValidPartition(p)
    ensures DecodePartition(EncodePartition(p) + rest) == Some((p, rest))
  {
    var r5 := rest;
    var r4 := EncodeArray(EncodeInt32, p.isr) + r5;
    var r3 := EncodeArray(EncodeInt32, p.replicas) + r4;
    var r2 := EncodeInt32(p.leader) + r3;
    var r1 := EncodeInt32(p.id) + r2;
    assert EncodePartition(p) + rest == EncodeInt16(p.error) + r1;
    Int16RoundTrip(p.error, r1);
    Int32RoundTrip(p.id, r2);
    Int32RoundTrip(p.leader, r3);
    Int32ArrayRoundTrip(p.replicas, r4);
    Int32ArrayRoundTrip(p.isr, r5);
  }

  /** Writing a topic entry and reading it back yields an equal entry and leaves the following bytes unread. */
  lemma TopicRoundTrip(t: TopicMetadata, rest: seq<Byte>)
    requires ValidTopic(t)
    ensures DecodeTopic(EncodeTopic(t) + rest) == Some((t, rest))
  {
    var r2 := EncodeArray(EncodePartition, t.partitions) + rest;
    var r1 := EncodeString(t.name) + r2;
    assert EncodeTopic(t) + rest == EncodeInt16(t.error) + r1;
    Int16RoundTrip(t.error, r1);
    StringRoundTrip(t.name, r2);
    forall i | 0 <= i < |t.partitions|
      ensures RoundTrips(DecodePartition, EncodePartition, t.partitions[i])
    {
      assert t.partitions[i] in t.partitions;
      forall r: seq<Byte> ensures DecodePartition(EncodePartition(t.partitions[i]) + r) == Some((t.partitions[i], r)) {
        PartitionRoundTrip(t.partitions[i], r);
      }
    }
    ArrayRoundTrip(DecodePartition, EncodePartition, t.partitions, rest);
  }

  // The bytes of the unit test's topic, grouped field by field.

  lemma ExampleIdListBytes()
    ensures EncodeArray(EncodeInt32, [0]) == [0, 0, 0, 1] + [0, 0, 0, 0]
  {
    assert [0][1..] == [];
    assert EncodeInt32(0) == [0, 0, 0, 0];
    assert EncodeInt32(1) == [0, 0, 0, 1];
  }

  /**
   * With every field distinct, the bytes pin the field order: error, id, leader,
   * replicas, isr.
   */
  lemma ExampleFieldOrderBytes()
    ensures EncodePartition(PartitionMetadata(9, 1, 2, [3], [4])) ==
      [0, 9] + [0, 0, 0, 1] + [0, 0, 0, 2] + ([0, 0, 0, 1] + [0, 0, 0, 3]) + ([0, 0, 0, 1] + [0, 0, 0, 4])
  {
    assert [3][1..] == [] && [4][1..] == [];
    assert EncodeInt16(9) == [0, 9];
    assert EncodeInt32(1) == [0, 0, 0, 1] && EncodeInt32(2) == [0, 0, 0, 2];
    assert EncodeInt32(3) == [0, 0, 0, 3] && EncodeInt32(4) == [0, 0, 0, 4];
  }

  /** The unit test's partition: a two-byte error, then four-byte fields and counted id lists. */
  lemma ExamplePartitionBytes()
    ensures EncodePartition(PartitionMetadata(0, 0, 0, [0], [0])) ==
      [0, 0] + [0, 0, 0, 0] + [0, 0, 0, 0] + ([0, 0, 0, 1] + [0, 0, 0, 0]) + ([0, 0, 0, 1] + [0, 0, 0, 0])
  {
    ExampleIdListBytes();
    assert EncodeInt16(0) == [0, 0];
    assert EncodeInt32(0) == [0, 0, 0, 0];
  }

  lemma ExampleNameBytes()
    ensures EncodeString("topic") == [0, 5] + [116, 111, 112, 105, 99]
  {
    assert CharsToBytes("topic") == [116, 111, 112, 105, 99];
    assert EncodeInt16(5) == [0, 5];
  }

  /**
   * The unit test's topic, error 0, name "topic" and one partition with error 0,
   * id 0, leader 0, replicas [0] and isr [0], encodes to these bytes.
   */
  lemma ExampleTopicBytes()
    ensures EncodeTopic(TopicMetadata(0, "topic", [PartitionMetadata(0, 0, 0, [0], [0])])) ==
      [0, 0] + ([0, 5] + [116, 111, 112, 105, 99]) + ([0, 0, 0, 1] +
        ([0, 0] + [0, 0, 0, 0] + [0, 0, 0, 0] + ([0, 0, 0, 1] + [0, 0, 0, 0]) + ([0, 0, 0, 1] + [0, 0, 0, 0])))
  {
    var p := PartitionMetadata(0, 0, 0, [0], [0]);
    ExampleNameBytes();
    ExamplePartitionBytes();
    assert [p][1..] == [];
    assert EncodeElements(EncodePartition, [p]) == EncodePartition(p) + [];
    assert EncodeInt16(0) == [0, 0];
    assert EncodeInt32(1) == [0, 0, 0, 1];
  }
}
