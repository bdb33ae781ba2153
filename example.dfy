/** example/main.cc: the geometry bookkeeping of the demo's main loop. It
    starts with one triangle; every frame in which the left button is down
    appends a small triangle (three vertices and the next three indices),
    uploads both arrays through the 64 KiB staging buffer and replaces the
    vertex and index buffers with new ones of the current sizes. Vertex
    contents (float positions and random colours) are opaque here: the
    three vertices a click adds come in with the frame. */
module Example {
  import opened Results

  /** `create_staging_buffer(64 * 1024)`: the staging buffer's size in bytes. */
  const StagingCapacity: nat := 64 * 1024

  /** What one pass of `while (game.poll())` sees: the window has closed,
      or it is open and the left button is up, or it is open and the button
      is down and these three vertices are to be added. */
  datatype Frame<V> = Closed | Idle | Click(first: V, second: V, third: V)

  /** How the loop ended: the window closed, the recorded frames ran out
      with the window still open, or an upload of `bytes` bytes would have
      written past the staging buffer (the C++ code does not check, so what
      follows is undefined and is not modelled). */
  datatype RunOutcome = WindowClosed | OutOfInput | StagingOverflow(bytes: nat)

  /** The vertices a frame appends. */
  function Added<V>(f: Frame<V>): seq<V>
  {
    if f.Click? then [f.first, f.second, f.third] else []
  }

  /** The vertex array after the first `k` frames: the initial triangle
      followed by the vertices of each clicking frame, in order. */
  function VerticesAfter<V>(initial: seq<V>, frames: seq<Frame<V>>, k: nat): seq<V>
    requires k <= |frames|
  {
    if k == 0 then initial else VerticesAfter(initial, frames, k - 1) + Added(frames[k - 1])
  }

  /** The number of clicking frames among the first `k`. */
  function ClicksIn<V>(frames: seq<Frame<V>>, k: nat): nat
    requires k <= |frames|
  {
    if k == 0 then 0 else ClicksIn(frames, k - 1) + (if frames[k - 1].Click? then 1 else 0)
  }

  /** Each click adds exactly three vertices, and a frame without a click
      adds none. */
  lemma {:induction false} VerticesAfterLength<V>(initial: seq<V>, frames: seq<Frame<V>>, k: nat)
    requires k <= |frames|
    ensures |VerticesAfter(initial, frames, k)| == |initial| + 3 * ClicksIn(frames, k)
  {
    if k > 0 {
      VerticesAfterLength(initial, frames, k - 1);
    }
  }

  /** Vertices are only ever appended: the array after `k` frames is a
      prefix of the array after any later frame. */
  lemma {:induction false} VerticesOnlyGrow<V>(initial: seq<V>, frames: seq<Frame<V>>, k: nat, m: nat)
    requires k <= m <= |frames|
    ensures VerticesAfter(initial, frames, k) <= VerticesAfter(initial, frames, m)
    decreases m - k
  {
    if k < m {
      VerticesOnlyGrow(initial, frames, k, m - 1);
    }
  }

  /** Frames in which the button is up change nothing: across a stretch of
      frames without a click the vertex array stays as it was. */
  lemma {:induction false} IdleFramesKeepVertices<V>(initial: seq<V>, frames: seq<Frame<V>>, k: nat, m: nat)
    requires k <= m <= |frames|
    requires forall j :: k <= j < m ==> !frames[j].Click?
    ensures VerticesAfter(initial, frames, m) == VerticesAfter(initial, frames, k)
    ensures ClicksIn(frames, m) == ClicksIn(frames, k)
    decreases m - k
  {
    if k < m {
      IdleFramesKeepVertices(initial, frames, k, m - 1);
    }
  }

  /** The position of the first frame at or after `k` in which the window
      has closed, or the number of frames when there is none: where the
      main loop stops. */
  function FirstClosedFrom<V>(frames: seq<Frame<V>>, k: nat): nat
    requires k <= |frames|
    decreases |frames| - k
  {
    if k == |frames| || frames[k].Closed? then k else FirstClosedFrom(frames, k + 1)
  }

  /** The loop's stopping point is the first closed frame: no frame before
      it is closed, and it is either past the end or closed itself. */
  lemma {:induction false} FirstClosedIsFirst<V>(frames: seq<Frame<V>>, k: nat)
    requires k <= |frames|
    ensures k <= FirstClosedFrom(frames, k) <= |frames|
    ensures FirstClosedFrom(frames, k) < |frames| ==> frames[FirstClosedFrom(frames, k)].Closed?
    ensures forall j :: k <= j < FirstClosedFrom(frames, k) ==> !frames[j].Closed?
    decreases |frames| - k
  {
    if k < |frames| && !frames[k].Closed? {
      FirstClosedIsFirst(frames, k + 1);
    }
  }

  /** The size in bytes of the `j`-th staging upload of a run: uploads
      alternate vertices and indices, and before the `c`-th click's pair
      there are 3 + 3c of each. */
  function UploadSize(vertexSize: nat, indexSize: nat, j: nat): nat
  {
    (if j % 2 == 0 then vertexSize else indexSize) * (3 + 3 * (j / 2))
  }

  /** The pair of uploads made by the click that brings the count of
      clicks to `c + 1`: the vertex upload sits at an even position and the
      index upload right after it, each sized for 3 + 3(c + 1) elements. */
  lemma ClickUploadSizes(vertexSize: nat, indexSize: nat, c: nat)
    ensures UploadSize(vertexSize, indexSize, 2 + 2 * c) == vertexSize * (3 + 3 * (c + 1))
    ensures UploadSize(vertexSize, indexSize, 3 + 2 * c) == indexSize * (3 + 3 * (c + 1))
  {
    assert (2 + 2 * c) / 2 == c + 1 && (2 + 2 * c) % 2 == 0;
    assert (3 + 2 * c) / 2 == c + 1 && (3 + 2 * c) % 2 == 1;
  }

  /** With indices no wider than vertices, an index upload never
      overflows the staging buffer: it follows, in a log of uploads that
      fitted, a vertex upload of as many elements. */
  lemma IndexUploadFits(uploads: seq<nat>, vertexSize: nat, indexSize: nat)
    requires Logged(uploads, vertexSize, indexSize)
    ensures indexSize <= vertexSize && |uploads| % 2 == 1 ==>
      UploadSize(vertexSize, indexSize, |uploads|) <= StagingCapacity
  {
    var j := |uploads|;
    if indexSize <= vertexSize && j % 2 == 1 {
      var n := 3 + 3 * (j / 2);
      assert (j - 1) / 2 == j / 2;
      assert uploads[j - 1] == vertexSize * n;
      assert indexSize * n <= vertexSize * n;
    }
  }

  /** Index `i` of the index array is `i`: each click's triangle uses
      exactly the three vertices it appended. */
  predicate Numbered(indices: seq<nat>)
  {
    forall i :: 0 <= i < |indices| ==> indices[i] == i
  }

  /** Appending the next three numbers keeps the index array numbered. */
  lemma NumberedAppend(indices: seq<nat>)
    requires Numbered(indices)
    ensures Numbered(indices + [|indices|, |indices| + 1, |indices| + 2])
  {
  }

  /** Upload `j` of the log has the size the schedule gives it and fits
      the staging buffer. */
  predicate Logged(uploads: seq<nat>, vertexSize: nat, indexSize: nat)
  {
    forall j :: 0 <= j < |uploads| ==> uploads[j] == UploadSize(vertexSize, indexSize, j) && uploads[j] <= StagingCapacity
  }

  /** Logging the next upload of the schedule, when it fits. */
  lemma LoggedAppend(uploads: seq<nat>, vertexSize: nat, indexSize: nat, bytes: nat)
    requires Logged(uploads, vertexSize, indexSize)
    requires bytes == UploadSize(vertexSize, indexSize, |uploads|) && bytes <= StagingCapacity
    ensures Logged(uploads + [bytes], vertexSize, indexSize)
  {
  }

  /** The body of `if (game.left_clicking())`: push the frame's three
      vertices and the next three indices, then stage the whole vertex array
      and the whole index array, each sized by element size times count.
      Returns the size of the first upload that would not fit the staging
      buffer, if any; the uploads that fit are logged. */
  method AddTriangle<V>(vertices: seq<V>, indices: seq<nat>, uploads: seq<nat>, frame: Frame<V>,
                        vertexSize: nat, indexSize: nat)
    returns (newVertices: seq<V>, newIndices: seq<nat>, newUploads: seq<nat>, overflow: Option<nat>)
    requires frame.Click?
    requires |indices| == |vertices| && Numbered(indices)
    requires 3 <= |vertices| && 3 * |uploads| == 2 * |vertices|
    requires Logged(uploads, vertexSize, indexSize)
    ensures newVertices == vertices + Added(frame)
    ensures newIndices == indices + [|indices|, |indices| + 1, |indices| + 2]
    ensures Numbered(newIndices)
    ensures Logged(newUploads, vertexSize, indexSize)
    ensures overflow.None? ==> 3 * |newUploads| == 2 * |newVertices|
    ensures overflow.None? ==> newUploads == uploads + [vertexSize * |newVertices|, indexSize * |newIndices|]
    ensures overflow.Some? ==> overflow.value > StagingCapacity
    ensures overflow.Some? ==> overflow.value == UploadSize(vertexSize, indexSize, |newUploads|)
    ensures overflow.Some? ==>
      newUploads == uploads || newUploads == uploads + [vertexSize * |newVertices|]
  {
    ClickUploadSizes(vertexSize, indexSize, |uploads| / 2 - 1);
    newVertices := vertices + [frame.first, frame.second, frame.third];
    var index := |indices|;
    NumberedAppend(indices);
    newIndices := indices + [index, index + 1, index + 2];
    newUploads := uploads;

    var bytes := vertexSize * |newVertices|;
    assert bytes == UploadSize(vertexSize, indexSize, |newUploads|);
    if bytes > StagingCapacity {
      return newVertices, newIndices, newUploads, Some(bytes);
    }
    LoggedAppend(newUploads, vertexSize, indexSize, bytes);
    newUploads := newUploads + [bytes];

    bytes := indexSize * |newIndices|;
    assert bytes == UploadSize(vertexSize, indexSize, |newUploads|);
    if bytes > StagingCapacity {
      return newVertices, newIndices, newUploads, Some(bytes);
    }
    LoggedAppend(newUploads, vertexSize, indexSize, bytes);
    newUploads := newUploads + [bytes];
    overflow := None;
  }

  /** The demo's setup and main loop. `vertexSize` and `indexSize` stand
      for sizeof(Vertex) and sizeof(IndexBuffer::IndexType). The returned
      `uploads` lists the byte counts copied into the staging buffer, and
      `processed` counts the frames fully handled. Throughout, there are as
      many indices as vertices and index `i` is `i`; unless an upload
      overflowed, the vertex array is the initial triangle followed by the
      clicked vertices in order, and both GPU buffers have the arrays'
      current lengths. Creating the vertex and index buffers and copying
      into them are taken to succeed. */
  method RunExample<V>(initial: seq<V>, frames: seq<Frame<V>>, vertexSize: nat, indexSize: nat)
    returns (vertices: seq<V>, indices: seq<nat>, vertexBufferCount: nat, indexBufferCount: nat,
             uploads: seq<nat>, processed: nat, outcome: RunOutcome)
    requires |initial| == 3
    ensures processed <= FirstClosedFrom(frames, 0) <= |frames|
    ensures |indices| == |vertices|
    ensures Numbered(indices)
    ensures Logged(uploads, vertexSize, indexSize)
    ensures outcome.StagingOverflow? ==> outcome.bytes > StagingCapacity
    ensures outcome.StagingOverflow? ==> outcome.bytes == UploadSize(vertexSize, indexSize, |uploads|)
    ensures outcome.StagingOverflow? ==>
      || (processed == 0 && |uploads| <= 1 && vertices == initial)
      || (&& processed < FirstClosedFrom(frames, 0)
          && frames[processed].Click?
          && vertices == VerticesAfter(initial, frames, processed + 1)
          && 2 + 2 * ClicksIn(frames, processed) <= |uploads| <= 3 + 2 * ClicksIn(frames, processed))
    ensures outcome.StagingOverflow? && indexSize <= vertexSize ==> |uploads| % 2 == 0
    ensures !outcome.StagingOverflow? ==>
      && vertices == VerticesAfter(initial, frames, processed)
      && |vertices| == 3 + 3 * ClicksIn(frames, processed)
      && |uploads| == 2 + 2 * ClicksIn(frames, processed)
      && vertexBufferCount == |vertices| && indexBufferCount == |indices|
    ensures !outcome.StagingOverflow? ==> processed == FirstClosedFrom(frames, 0)
    ensures outcome == WindowClosed <==> processed < |frames| && !outcome.StagingOverflow?
  {
    FirstClosedIsFirst(frames, 0);
    vertices := initial;
    indices := [0, 1, 2];
    vertexBufferCount, indexBufferCount := 3, 3;
    uploads := [];
    processed := 0;

    var bytes := vertexSize * |vertices|;
    if bytes > StagingCapacity {
      return vertices, indices, vertexBufferCount, indexBufferCount, uploads, processed, StagingOverflow(bytes);
    }
    uploads := uploads + [bytes];
    bytes := indexSize * |indices|;
    if bytes > StagingCapacity {
      IndexUploadFits(uploads, vertexSize, indexSize);
      return vertices, indices, vertexBufferCount, indexBufferCount, uploads, processed, StagingOverflow(bytes);
    }
    uploads := uploads + [bytes];

    while processed < |frames| && !frames[processed].Closed?
      invariant processed <= |frames|
      invariant FirstClosedFrom(frames, processed) == FirstClosedFrom(frames, 0)
      invariant |indices| == |vertices|
      invariant Numbered(indices)
      invariant vertices == VerticesAfter(initial, frames, processed)
      invariant |vertices| == 3 + 3 * ClicksIn(frames, processed)
      invariant |uploads| == 2 + 2 * ClicksIn(frames, processed)
      invariant Logged(uploads, vertexSize, indexSize)
      invariant vertexBufferCount == |vertices| && indexBufferCount == |indices|
    {
      FirstClosedIsFirst(frames, processed);
      var frame := frames[processed];
      if frame.Click? {
        var overflow;
        vertices, indices, uploads, overflow := AddTriangle(vertices, indices, uploads, frame, vertexSize, indexSize);
        if overflow.Some? {
          IndexUploadFits(uploads, vertexSize, indexSize);
          return vertices, indices, vertexBufferCount, indexBufferCount, uploads, processed, StagingOverflow(overflow.value);
        }
        vertexBufferCount, indexBufferCount := |vertices|, |indices|;
      }
      assert vertices == VerticesAfter(initial, frames, processed + 1);
      processed := processed + 1;
    }
    outcome := if processed < |frames| then WindowClosed else OutOfInput;
  }
}
