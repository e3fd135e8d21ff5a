/** The OP-1 metadata chunk and the loop that splices it into an AIFF file.

    An AIFF file (Audio Interchange File Format 1.3, built on EA IFF 85) is a
    FORM container: "FORM", a 4-byte big-endian size equal to the file length
    minus 8, then chunks.  The OP-1 reads its patch from an Application
    Specific Chunk: "APPL", a 4-byte big-endian size, the 4-byte signature
    "op-1", then a JSON document.  The writers in the op1 package (drum Save,
    synth SaveSynth) and the prototype in main.go (run) all build the chunk
    the same way and append filler bytes until the form size is aligned.
    Unlike the IFF pad byte, the filler is counted in the chunk size. */
module Container {
  import opened Common

  const ApplTag: Bytes := [65, 80, 80, 76]    // "APPL"
  const SsndTag: Bytes := [83, 83, 78, 68]    // "SSND"
  const Op1Magic: Bytes := [111, 112, 45, 49] // "op-1"

  /** The filler after n passes of the loop: one byte 10, then bytes 30. */
  function Filler(n: nat): (f: Bytes)
    requires n >= 1
    ensures |f| == n && f[0] == 10
    ensures forall i :: 1 <= i < n ==> f[i] == 30
  {
    [10] + seq(n - 1, _ => 30)
  }

  /** The bytes one pass of the loop assembles before fixing the form size:
      head (which ends with the "APPL" tag), the chunk size, the signature,
      the JSON, the filler, and the untouched tail that starts at "SSND". */
  function Chunked(head: Bytes, json: Bytes, filler: Bytes, tail: Bytes): Bytes
  {
    head + BE32(4 + |filler| + |json|) + Op1Magic + json + filler + tail
  }

  /** Bytes 4..8 rewritten with the form size, the length minus 8. */
  function WithFormSize(b: Bytes): (r: Bytes)
    requires |b| >= 8
    ensures |r| == |b|
    ensures r[..4] == b[..4] && r[8..] == b[8..]
    ensures ReadBE32(r[4..8]) == (|b| - 8) % Two32
  {
    b[..4] + BE32(|b| - 8) + b[8..]
  }

  /** Reference definition of the filler length the loop settles on: the
      smallest n >= 1 that makes |head| + |json| + n + |tail| a multiple. */
  function AlignedFillerLength(head: Bytes, json: Bytes, tail: Bytes, modulus: nat): nat
    requires modulus > 0
  {
    modulus - (|head| + |json| + |tail|) % modulus
  }

  /** One more pass of the loop appends one byte 30 to the filler. */
  lemma FillerGrows(n: nat)
    requires n >= 1
    ensures Filler(n) + [30] == Filler(n + 1)
  {
    assert seq(n - 1, _ => 30) + [30] == seq(n, _ => 30);
  }

  /** The file the splice loop writes. */
  function AlignedSplice(head: Bytes, json: Bytes, tail: Bytes, modulus: nat): Bytes
    requires modulus > 0
  {
    WithFormSize(Chunked(head, json, Filler(AlignedFillerLength(head, json, tail, modulus)), tail))
  }

  /** With a filler of k bytes the spliced file's form size is aligned. */
  predicate AlignsWith(head: Bytes, json: Bytes, tail: Bytes, k: nat, modulus: nat)
    requires k >= 1 && modulus > 0
  {
    (|Chunked(head, json, Filler(k), tail)| - 8) % modulus == 0
  }

  /** A total of base + k bytes after the form header is aligned. */
  predicate FillerAligns(base: int, k: int, modulus: nat)
    requires modulus > 0
  {
    (base + k) % modulus == 0
  }

  /** Among the candidates 1..modulus for the filler length, exactly the
      reference one aligns the form size. */
  lemma {:induction false} AlignedFillerLengthIsFirst(base: nat, modulus: nat, k: nat)
    requires modulus > 0 && 1 <= k <= modulus - base % modulus
    ensures FillerAligns(base, k, modulus) <==> k == modulus - base % modulus
  {
    var q, r := base / modulus, base % modulus;
    if r + k == modulus {
      ModOfDivision(base + k, modulus, q + 1, 0);
    } else {
      ModOfDivision(base + k, modulus, q, r + k);
    }
  }

  /** The shared splice loop (src/op1/drum.go:92-126, src/op1/synth.go:452-486,
      main.go:244-273): start with filler [10]; on every pass rebuild the file
      from scratch, rewrite the form size, and stop once the form size is a
      multiple of modulus, else add one filler byte 30 and go round again. */
  method SpliceAligned(head: Bytes, json: Bytes, tail: Bytes, modulus: nat) returns (out: Bytes, fillerLength: nat)
    requires modulus > 0
    ensures 1 <= fillerLength <= modulus
    ensures out == WithFormSize(Chunked(head, json, Filler(fillerLength), tail))
    ensures (|out| - 8) % modulus == 0
    ensures forall k :: 1 <= k < fillerLength ==> !AlignsWith(head, json, tail, k, modulus)
    ensures out == AlignedSplice(head, json, tail, modulus)
  {
    var filler: Bytes := [10];
    ghost var base := |head| + |json| + |tail|;
    ghost var target := AlignedFillerLength(head, json, tail, modulus);
    while true
      invariant 1 <= |filler| <= target
      invariant filler == Filler(|filler|)
      invariant forall k :: 1 <= k < |filler| ==> !FillerAligns(base, k, modulus)
      decreases target - |filler|
    {
      var b2 := head + BE32(4 + |filler| + |json|) + Op1Magic + json + filler + tail;
      var totalSize := |b2| - 8;
      var b3 := b2[..4] + BE32(totalSize) + b2[8..];
      assert b2 == Chunked(head, json, filler, tail);
      assert b3 == WithFormSize(b2);
      assert totalSize == base + |filler|;
      AlignedFillerLengthIsFirst(base, modulus, |filler|);
      if totalSize % modulus == 0 {
        assert FillerAligns(base, |filler|, modulus);
        assert filler == Filler(target);
        out, fillerLength := b3, |filler|;
        break;
      }
      FillerGrows(|filler|);
      filler := filler + [30];
    }
    forall k | 1 <= k < fillerLength
      ensures !AlignsWith(head, json, tail, k, modulus)
    {
      assert !FillerAligns(base, k, modulus);
      assert |Chunked(head, json, Filler(k), tail)| - 8 == base + k;
    }
  }

  /** The file AlignedSplice produces is aligned, its form-size field holds
      its length minus 8, and the filler is 1..modulus bytes. */
  lemma AlignedSpliceIsAligned(head: Bytes, json: Bytes, tail: Bytes, modulus: nat)
    requires modulus > 0
    ensures var out := AlignedSplice(head, json, tail, modulus);
            var n := AlignedFillerLength(head, json, tail, modulus);
            && 1 <= n <= modulus
            && |out| == |head| + 8 + |json| + n + |tail|
            && (|out| - 8) % modulus == 0
            && ReadBE32(out[4..8]) == (|out| - 8) % Two32
  {
    var base := |head| + |json| + |tail|;
    var n := AlignedFillerLength(head, json, tail, modulus);
    AlignedFillerLengthIsFirst(base, modulus, n);
  }

  /** The filler length the splice loop settles on when the chunk goes
      into b: the form size is then aligned. */
  function InsertFillerLength(b: Bytes, json: Bytes, modulus: nat): (n: nat)
    requires modulus > 0
    ensures 1 <= n <= modulus
    ensures (|b| + 4 + |json| + n) % modulus == 0
  {
    var base := |b| + 4 + |json|;
    AlignedFillerLengthIsFirst(base, modulus, modulus - base % modulus);
    modulus - base % modulus
  }

  /** The file drum Save and synth SaveSynth build with a filler of n bytes:
      the chunk goes in front of the "SSND" tag at index p of b. */
  function ChunkBefore(b: Bytes, p: nat, json: Bytes, n: nat): (out: Bytes)
    requires p <= |b| && n >= 1
    ensures |out| == |b| + 12 + |json| + n
  {
    WithFormSize(Chunked(b[..p] + ApplTag, json, Filler(n), b[p..]))
  }

  /** The file drum Save (modulus 4) and synth SaveSynth (modulus 2) write. */
  function InsertChunk(b: Bytes, p: nat, json: Bytes, modulus: nat): (out: Bytes)
    requires p <= |b| && modulus > 0
  {
    ChunkBefore(b, p, json, InsertFillerLength(b, json, modulus))
  }

  /** Inserting is the shared splice loop run on the input cut at p. */
  lemma InsertChunkIsSplice(b: Bytes, p: nat, json: Bytes, modulus: nat)
    requires p <= |b| && modulus > 0
    ensures InsertChunk(b, p, json, modulus) == AlignedSplice(b[..p] + ApplTag, json, b[p..], modulus)
  {
    assert |b[..p] + ApplTag| + |json| + |b[p..]| == |b| + 4 + |json|;
  }

  /** Byte layout of an inserted chunk (src/op1/drum.go:95-117): the input up
      to the tag with the form size rewritten, "APPL", the chunk size counting
      signature, JSON and filler, then the input from "SSND" on, unchanged;
      the chunk size field holds the number of bytes from the end of the
      field to the "SSND" tag (src/op1/drum.go:100); the filler is the
      shortest [10, 30, 30, ...] that makes the form size a multiple of
      modulus. */
  lemma InsertChunkLayout(b: Bytes, p: nat, json: Bytes, modulus: nat)
    requires 8 <= p <= |b| && modulus > 0
    requires OccursAt(b, SsndTag, p)
    ensures var out := InsertChunk(b, p, json, modulus);
            var n := InsertFillerLength(b, json, modulus);
            var ssnd := p + 12 + |json| + n;
            && 1 <= n <= modulus
            && (|out| - 8) % modulus == 0
            && out == b[..4] + BE32(|out| - 8) + b[8..p] + ApplTag + BE32(4 + n + |json|)
                      + Op1Magic + json + Filler(n) + b[p..]
            && out[p + 4..p + 8] == BE32(ssnd - (p + 8))
            && OccursAt(out, SsndTag, ssnd)
            && out[ssnd..] == b[p..]
  {
    var n := InsertFillerLength(b, json, modulus);
    ChunkBeforeLayout(b, p, json, n);
    ChunkBeforeSizeField(b, p, json, n);
  }

  /** The bytes of a spliced file with a filler of n bytes. */
  lemma ChunkBeforeLayout(b: Bytes, p: nat, json: Bytes, n: nat)
    requires 8 <= p <= |b| && n >= 1
    ensures var out := ChunkBefore(b, p, json, n);
            out == b[..4] + BE32(|out| - 8) + b[8..p] + ApplTag + BE32(4 + n + |json|)
                   + Op1Magic + json + Filler(n) + b[p..]
  {
    var out := ChunkBefore(b, p, json, n);
    var size := BE32(4 + n + |json|);
    ChunkedAfterHead(b[..p], json, Filler(n), b[p..]);
    LayoutFromParts(out, b, p, size, json, Filler(n));
  }

  /** The form size rewrite seen through the parts of a spliced file. */
  lemma LayoutFromParts(out: Bytes, b: Bytes, p: nat, size: Bytes, json: Bytes, filler: Bytes)
    requires 8 <= p <= |b|
    requires out == WithFormSize(b[..p] + (ApplTag + size + Op1Magic + json + filler + b[p..]))
    ensures out == b[..4] + BE32(|out| - 8) + b[8..p] + ApplTag + size + Op1Magic + json
                   + filler + b[p..]
  {
    var rest := ApplTag + size + Op1Magic + json + filler + b[p..];
    FormSizeOfConcat(b[..p], rest);
    assert b[..p][..4] == b[..4] && b[..p][8..] == b[8..p];
    Reassociate(b[..4], BE32(|out| - 8), b[8..p], ApplTag, size, Op1Magic, json, filler, b[p..]);
  }

  lemma ChunkedAfterHead(x: Bytes, json: Bytes, filler: Bytes, tail: Bytes)
    ensures Chunked(x + ApplTag, json, filler, tail)
            == x + (ApplTag + BE32(4 + |filler| + |json|) + Op1Magic + json + filler + tail)
  {
  }

  lemma FormSizeOfConcat(x: Bytes, y: Bytes)
    requires |x| >= 8
    ensures WithFormSize(x + y) == x[..4] + BE32(|x| + |y| - 8) + (x[8..] + y)
  {
    assert (x + y)[..4] == x[..4] && (x + y)[8..] == x[8..] + y;
  }

  lemma Reassociate(a: Bytes, s: Bytes, c: Bytes, t1: Bytes, t2: Bytes, t3: Bytes,
                    t4: Bytes, t5: Bytes, t6: Bytes)
    ensures a + s + (c + (t1 + t2 + t3 + t4 + t5 + t6))
            == a + s + c + t1 + t2 + t3 + t4 + t5 + t6
  {
  }

  lemma Regroup(a: Bytes, s: Bytes, c: Bytes, t1: Bytes, t2: Bytes, t3: Bytes,
                t4: Bytes, t5: Bytes, t6: Bytes)
    ensures a + s + c + t1 + t2 + t3 + t4 + t5 + t6
            == (a + s + c + t1) + (t2 + ((t3 + t4 + t5) + t6))
  {
  }

  /** The chunk size field of a spliced file and where "SSND" lands. */
  lemma ChunkBeforeSizeField(b: Bytes, p: nat, json: Bytes, n: nat)
    requires 8 <= p <= |b| && n >= 1
    requires OccursAt(b, SsndTag, p)
    ensures var out := ChunkBefore(b, p, json, n);
            var ssnd := p + 12 + |json| + n;
            && out[p + 4..p + 8] == BE32(ssnd - (p + 8))
            && OccursAt(out, SsndTag, ssnd)
            && out[ssnd..] == b[p..]
  {
    var out := ChunkBefore(b, p, json, n);
    ChunkBeforeLayout(b, p, json, n);
    var pre := b[..4] + BE32(|out| - 8) + b[8..p] + ApplTag;
    var body := Op1Magic + json + Filler(n);
    Regroup(b[..4], BE32(|out| - 8), b[8..p], ApplTag, BE32(4 + n + |json|), Op1Magic, json,
            Filler(n), b[p..]);
    assert b[p..][..4] == SsndTag;
    PartsOfConcat(pre, BE32(4 + n + |json|), body, b[p..]);
  }

  /** Where the pieces of a four-part concatenation sit. */
  lemma PartsOfConcat(x: Bytes, y: Bytes, z: Bytes, t: Bytes)
    requires |t| >= 4
    ensures var out := x + (y + (z + t));
            && out[|x|..|x| + |y|] == y
            && out[|x| + |y| + |z|..] == t
            && OccursAt(out, t[..4], |x| + |y| + |z|)
  {
    var out := x + (y + (z + t));
    assert out[|x|..] == y + (z + t);
    assert (y + (z + t))[|y|..] == z + t;
    assert out[|x| + |y| + |z|..] == t;
  }
}
