/** The streamed download of the chosen asset: chunks are appended to an in-memory buffer
    while a progress bar counts the bytes. The HTTP request itself is not part of this model;
    the response body is given as the sequence of results of reading its next chunk. */
module Download {
  import opened Wrappers
  import opened Errors
  import Releases
  import Utils

  /** One read of the response body: a chunk of bytes, or a failed read. The end of the
      body is the end of the sequence. */
  datatype ChunkRead = Chunk(bytes: seq<bv8>) | ChunkFailed

  /** The bytes carried by the chunks of `body`, in order. */
  function Received(body: seq<ChunkRead>): seq<bv8> {
    if body == [] then []
    else
      var last := body[|body| - 1];
      Received(body[..|body| - 1]) + (if last.Chunk? then last.bytes else [])
  }

  /** The sum of the chunk lengths in `body`. */
  function TotalLength(body: seq<ChunkRead>): nat {
    if body == [] then 0
    else (if body[0].Chunk? then |body[0].bytes| else 0) + TotalLength(body[1..])
  }

  /** The position of the first failed read, or the length when every read succeeds. */
  function FailureIndex(body: seq<ChunkRead>): (k: nat)
    ensures k <= |body|
    ensures forall j :: 0 <= j < k ==> body[j].Chunk?
    ensures k < |body| ==> body[k].ChunkFailed?
  {
    if body == [] || body[0].ChunkFailed? then 0
    else 1 + FailureIndex(body[1..])
  }

  /** Reading `a` then `b` receives what `a` carries followed by what `b` carries. */
  lemma {:induction false} ReceivedAppend(a: seq<ChunkRead>, b: seq<ChunkRead>)
    ensures Received(a + b) == Received(a) + Received(b)
    decreases |b|
  {
    if b == [] {
      assert a + b == a;
    } else {
      var last := b[|b| - 1];
      assert (a + b)[..|a + b| - 1] == a + b[..|b| - 1];
      ReceivedAppend(a, b[..|b| - 1]);
    }
  }

  /** The received buffer is exactly as long as all chunks together. */
  lemma {:induction false} ReceivedLength(body: seq<ChunkRead>)
    ensures |Received(body)| == TotalLength(body)
  {
    if body != [] {
      ReceivedLength(body[1..]);
      ReceivedAppend([body[0]], body[1..]);
      assert [body[0]] + body[1..] == body;
      assert [body[0]][..0] == [];
    }
  }

  /** `isize::MAX` on a 64-bit target: the largest capacity `Vec::with_capacity` accepts. */
  const IsizeMax: nat := 0x7FFF_FFFF_FFFF_FFFF

  /** The download loop: create a progress bar for the declared size, reserve a buffer of
      `totalSize as usize` bytes, then append every chunk to the buffer and advance the bar
      by its length, until the body ends (the buffer is the whole body) or a read fails (the
      buffer is dropped and the error returned). A negative size becomes a capacity above
      `isize::MAX`, and the reservation aborts before any chunk is read. `progress` is where
      the bar stands when the method ends. */
  method DownloadBody(totalSize: Releases.i64, body: seq<ChunkRead>)
    returns (r: Result<seq<bv8>, Error>, progress: nat)
    ensures r == Err(CapacityOverflow) <==> totalSize < 0
    ensures totalSize < 0 ==> progress == 0
    ensures r.Ok? <==> totalSize >= 0 && FailureIndex(body) == |body|
    ensures r.Ok? ==> r.value == Received(body) && progress == |r.value|
    ensures totalSize >= 0 && r.Err? ==> r.error == ChunkReadFailed
    ensures totalSize >= 0 ==> progress == |Received(body[..FailureIndex(body)])|
  {
    var pb := new Utils.ProgressBar(totalSize);
    if Utils.AsU64(totalSize) > IsizeMax {
      return Err(CapacityOverflow), pb.position;
    }
    var content: seq<bv8> := [];
    var i := 0;
    while i < |body|
      invariant i <= |body|
      invariant forall j :: 0 <= j < i ==> body[j].Chunk?
      invariant content == Received(body[..i])
      invariant pb.position == |content|
    {
      match body[i] {
        case ChunkFailed =>
          return Err(ChunkReadFailed), pb.position;
        case Chunk(bytes) =>
          assert body[..i + 1][..i] == body[..i];
          content := content + bytes;
          pb.Inc(|bytes|);
      }
      i := i + 1;
    }
    assert body[..i] == body;
    r, progress := Ok(content), pb.position;
  }
}
