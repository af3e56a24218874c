/** Bounded capture: what is kept of a command's output while it is read, and
    how a captured text is cut to its cap without splitting a character. */
module Capture {
  import opened Text

  const CAPTURE_LIMIT: nat := 64 * 1024
  const MAX_OUTPUT_BYTES: nat := 16 * 1024

  // "\n... [output truncated]"
  const TRUNCATED: bytes := [
    0x0A, 0x2E, 0x2E, 0x2E, 0x20, 0x5B, 0x6F, 0x75, 0x74, 0x70, 0x75, 0x74,
    0x20, 0x74, 0x72, 0x75, 0x6E, 0x63, 0x61, 0x74, 0x65, 0x64, 0x5D]

  function Upto(s: bytes, limit: nat): bytes {
    if |s| <= limit then s else s[..limit]
  }

  // ----- reading -----

  /** One read of the pipe; an empty read is its end. */
  datatype Read = Data(chunk: bytes) | Failed

  /** Everything the pipe delivers before it ends or fails. */
  function Delivered(pipe: seq<Read>): bytes {
    if pipe == [] || pipe[0].Failed? || pipe[0].chunk == [] then []
    else pipe[0].chunk + Delivered(pipe[1..])
  }

  class Captured {
    var buffer: bytes
    var truncated: bool

    constructor ()
      ensures buffer == [] && !truncated
    {
      buffer, truncated := [], false;
    }

    /** Keeps what there is room for. */
    method Keep(chunk: bytes)
      modifies this
      ensures old(|buffer|) <= CAPTURE_LIMIT ==> buffer == Upto(old(buffer) + chunk, CAPTURE_LIMIT)
      ensures truncated <==> old(truncated) || (chunk != [] && old(|buffer|) + |chunk| > CAPTURE_LIMIT)
    {
      var room := if |buffer| < CAPTURE_LIMIT then CAPTURE_LIMIT - |buffer| else 0;
      if |chunk| > room {
        truncated := true;
      }
      var keep := if |chunk| < room then |chunk| else room;
      buffer := buffer + chunk[..keep];
      assert keep == |chunk| ==> chunk[..keep] == chunk;
    }

    /** However the output is cut into reads, the buffer is its first bytes, and
        the flag tells exactly whether there were more. */
    method ReadAll(pipe: seq<Read>)
      requires buffer == [] && !truncated
      modifies this
      ensures buffer == Upto(Delivered(pipe), CAPTURE_LIMIT)
      ensures truncated <==> |Delivered(pipe)| > CAPTURE_LIMIT
    {
      ghost var seen: bytes := [];
      var n := 0;
      assert pipe[0..] == pipe;
      AppendEmpty(Delivered(pipe), seen);
      while n < |pipe|
        invariant n <= |pipe|
        invariant seen + Delivered(pipe[n..]) == Delivered(pipe)
        invariant buffer == Upto(seen, CAPTURE_LIMIT) && (truncated <==> |seen| > CAPTURE_LIMIT)
      {
        assert pipe[n..][0] == pipe[n] && pipe[n..][1..] == pipe[n + 1..];
        if pipe[n].Failed? || pipe[n].chunk == [] {
          AppendEmpty(seen, Delivered(pipe[n..]));
          return;
        }
        var chunk := pipe[n].chunk;
        Assoc(seen, chunk, Delivered(pipe[n + 1..]));
        Keep(chunk);
        seen := seen + chunk;
        n := n + 1;
      }
      AppendEmpty(seen, Delivered(pipe[n..]));
    }
  }

  // ----- cutting to the cap -----

  lemma {:induction false} AsciiIsUtf8(s: bytes)
    requires forall k :: 0 <= k < |s| ==> s[k] < 0x80
    ensures Utf8(s)
  {
    if s != [] {
      assert forall k :: 0 <= k < |s| - 1 ==> s[1..][k] == s[k + 1];
      AsciiIsUtf8(s[1..]);
    }
  }

  /** A text over the cap is cut at the last boundary the cap allows, and marked. */
  method Bound(text: bytes) returns (r: bytes, ghost end: nat)
    requires Utf8(text)
    ensures Utf8(r)
    ensures |text| <= MAX_OUTPUT_BYTES ==> r == text
    ensures |text| > MAX_OUTPUT_BYTES ==>
      MAX_OUTPUT_BYTES - 3 <= end <= MAX_OUTPUT_BYTES && Boundary(text, end) && r == text[..end] + TRUNCATED &&
      forall i :: end < i <= MAX_OUTPUT_BYTES ==> !Boundary(text, i)
  {
    hide Utf8;
    end := 0;
    if |text| <= MAX_OUTPUT_BYTES {
      return text, 0;
    }
    var cut := MAX_OUTPUT_BYTES;
    BoundaryNear(text, cut);
    ghost var near :| 0 <= near <= cut <= near + 3 && Boundary(text, near);
    while !Boundary(text, cut)
      invariant near <= cut <= MAX_OUTPUT_BYTES
      invariant forall i :: cut < i <= MAX_OUTPUT_BYTES ==> !Boundary(text, i)
      decreases cut
    {
      cut := cut - 1;
    }
    Utf8Split(text, cut);
    AsciiIsUtf8(TRUNCATED);
    Utf8Concat(text[..cut], TRUNCATED);
    end := cut;
    r := text[..cut] + TRUNCATED;
  }
}
