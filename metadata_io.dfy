/**
 * Writing a topic entry into a RequestBuffer and reading one from a
 * ResponseBuffer, field by field and element by element, each proved to agree
 * with the layout of the MetadataCodec module.
 */
module MetadataIO {
  import opened Wrappers
  import opened Wire
  import opened WireArrays
  import opened Metadata
  import opened MetadataCodec
  import opened Buffers

  method WriteInt32Array(buffer: RequestBuffer, xs: seq<int>)
    modifies buffer
    ensures buffer.bytes == old(buffer.bytes) + EncodeArray(EncodeInt32, xs)
  {
    buffer.WriteInt32(|xs|);
    ghost var start := buffer.bytes;
    for i := 0 to |xs|
      invariant buffer.bytes == start + EncodeElements(EncodeInt32, xs[..i])
    {
      buffer.WriteInt32(xs[i]);
      AppendElement(EncodeInt32, start, xs[..i], xs[i]);
      assert xs[..i + 1] == xs[..i] + [xs[i]];
    }
    assert xs[..|xs|] == xs;
  }

  method WritePartition(buffer: RequestBuffer, p: PartitionMetadata)
    modifies buffer
    ensures buffer.bytes == old(buffer.bytes) + EncodePartition(p)
  {
    buffer.WriteInt16(p.error);
    buffer.WriteInt32(p.id);
    buffer.WriteInt32(p.leader);
    WriteInt32Array(buffer, p.replicas);
    WriteInt32Array(buffer, p.isr);
  }

  method WritePartitionEntries(buffer: RequestBuffer, ps: seq<PartitionMetadata>)
    modifies buffer
    ensures buffer.bytes == old(buffer.bytes) + EncodeElements(EncodePartition, ps)
  {
    ghost var start := buffer.bytes;
    var i := 0;
    while i < |ps|
      invariant i <= |ps|
      invariant buffer.bytes == start + EncodeElements(EncodePartition, ps[..i])
    {
      WritePartition(buffer, ps[i]);
      AppendElement(EncodePartition, start, ps[..i], ps[i]);
      assert ps[..i + 1] == ps[..i] + [ps[i]];
      i := i + 1;
    }
    assert ps[..|ps|] == ps;
  }

  method WritePartitions(buffer: RequestBuffer, ps: seq<PartitionMetadata>)
    modifies buffer
    ensures buffer.bytes == old(buffer.bytes) + EncodeArray(EncodePartition, ps)
  {
    buffer.WriteInt32(|ps|);
    WritePartitionEntries(buffer, ps);
  }

  /** Appends the topic entry: error, name, partition count, then each partition. */
  method Write(t: TopicMetadata, buffer: RequestBuffer)
    modifies buffer
    ensures buffer.bytes == old(buffer.bytes) + EncodeTopic(t)
  {
    buffer.WriteInt16(t.error);
    buffer.WriteString(t.name);
    WritePartitions(buffer, t.partitions);
  }

  method ReadInt32Array(buffer: ResponseBuffer) returns (r: Option<seq<int>>)
    requires buffer.Valid()
    modifies buffer
    ensures buffer.Valid()
    ensures match DecodeArray(DecodeInt32, old(buffer.Remaining()))
            case None => r == None
            case Some((xs, rest)) => r == Some(xs) && buffer.Remaining() == rest
  {
    var n := buffer.ReadInt32();
    if n == None || n.value < 0 {
      return None;
    }
    ghost var start := buffer.Remaining();
    var xs: seq<int> := [];
    var i := 0;
    while i < n.value
      invariant buffer.Valid() && 0 <= i <= n.value
      invariant DecodeElements(DecodeInt32, start, i) == Some((xs, buffer.Remaining()))
      decreases n.value - i
    {
      ghost var before := buffer.Remaining();
      var x := buffer.ReadInt32();
      if x == None {
        DecodeElementsFails(DecodeInt32, start, i, n.value, xs, before);
        return None;
      }
      DecodeElementsSnoc(DecodeInt32, start, i, xs, before, x.value, buffer.Remaining());
      xs := xs + [x.value];
      i := i + 1;
    }
    r := Some(xs);
  }

  method ReadPartition(buffer: ResponseBuffer) returns (r: Option<PartitionMetadata>)
    requires buffer.Valid()
    modifies buffer
    ensures buffer.Valid()
    ensures match DecodePartition(old(buffer.Remaining()))
            case None => r == None
            case Some((p, rest)) => r == Some(p) && buffer.Remaining() == rest
  {
    var error := buffer.ReadInt16();
    if error == None {
      return None;
    }
    var id := buffer.ReadInt32();
    if id == None {
      return None;
    }
    var leader := buffer.ReadInt32();
    if leader == None {
      return None;
    }
    var replicas := ReadInt32Array(buffer);
    if replicas == None {
      return None;
    }
    var isr := ReadInt32Array(buffer);
    if isr == None {
      return None;
    }
    r := Some(PartitionMetadata(error.value, id.value, leader.value, replicas.value, isr.value));
  }

  method ReadPartitions(buffer: ResponseBuffer) returns (r: Option<seq<PartitionMetadata>>)
    requires buffer.Valid()
    modifies buffer
    ensures buffer.Valid()
    ensures match DecodeArray(DecodePartition, old(buffer.Remaining()))
            case None => r == None
            case Some((ps, rest)) => r == Some(ps) && buffer.Remaining() == rest
  {
    var n := buffer.ReadInt32();
    if n == None || n.value < 0 {
      return None;
    }
    ghost var start := buffer.Remaining();
    var ps: seq<PartitionMetadata> := [];
    var i := 0;
    while i < n.value
      invariant buffer.Valid() && 0 <= i <= n.value
      invariant DecodeElements(DecodePartition, start, i) == Some((ps, buffer.Remaining()))
      decreases n.value - i
    {
      ghost var before := buffer.Remaining();
      var p := ReadPartition(buffer);
      if p == None {
        DecodeElementsFails(DecodePartition, start, i, n.value, ps, before);
        return None;
      }
      DecodeElementsSnoc(DecodePartition, start, i, ps, before, p.value, buffer.Remaining());
      ps := ps + [p.value];
      i := i + 1;
    }
    r := Some(ps);
  }

  /** Parses one topic entry at the cursor; None when the bytes are truncated or malformed. */
  method Read(buffer: ResponseBuffer) returns (r: Option<TopicMetadata>)
    requires buffer.Valid()
    modifies buffer
    ensures buffer.Valid()
    ensures match DecodeTopic(old(buffer.Remaining()))
            case None => r == None
            case Some((t, rest)) => r == Some(t) && buffer.Remaining() == rest
  {
    var error := buffer.ReadInt16();
    if error == None {
      return None;
    }
    var name := buffer.ReadString();
    if name == None {
      return None;
    }
    var ps := ReadPartitions(buffer);
    if ps == None {
      return None;
    }
    r := Some(TopicMetadata(error.value, name.value, ps.value));
  }

  /**
   * The encoding round trip of the unit test: write a topic entry into a new
   * RequestBuffer, read it back from a ResponseBuffer over those bytes, and get an
   * equal entry with nothing left over.
   */
  method RoundTripThroughBuffers(t: TopicMetadata) returns (r: Option<TopicMetadata>, leftOver: nat)
    requires ValidTopic(t)
    ensures r == Some(t) && leftOver == 0
  {
    var request := new RequestBuffer();
    Write(t, request);
    var response := new ResponseBuffer(request.bytes);
    TopicRoundTrip(t, []);
    assert response.Remaining() == EncodeTopic(t) + [];
    r := Read(response);
    leftOver := |response.data| - response.cursor;
  }
}
