/**
 * The renderer filter that makes (near-)black pixels transparent, used for
 * the occulting disk of coronagraph images. The canvas holds RGBA bytes,
 * four per pixel.
 */
module Colors {

  newtype byte = x: int | 0 <= x < 256

  /** The pixel starting at `p` has red, green and blue bytes, each at most 1. */
  predicate NearBlack(s: seq<byte>, p: int)
  {
    0 <= p && p + 2 < |s| && s[p] <= 1 && s[p + 1] <= 1 && s[p + 2] <= 1
  }

  /**
   * The buffer after the filter: each byte is kept, except the alpha byte
   * (offset 3 within its pixel) of a near-black pixel, which becomes 0.
   */
  function Filtered(s: seq<byte>): (r: seq<byte>)
    ensures |r| == |s|
  {
    seq(|s|, k requires 0 <= k < |s| => if k % 4 == 3 && NearBlack(s, k - 3) then 0 else s[k])
  }

  /**
   * What the filter promises: red, green and blue are never touched, a
   * near-black pixel ends fully transparent, and any other pixel keeps its
   * alpha.
   */
  lemma FilteredChannels(s: seq<byte>, p: int)
    requires 0 <= p < |s| && p % 4 == 0
    ensures forall k :: p <= k < p + 3 && k < |s| ==> Filtered(s)[k] == s[k]
    ensures p + 3 < |s| && NearBlack(s, p) ==> Filtered(s)[p + 3] == 0
    ensures p + 3 < |s| && !NearBlack(s, p) ==> Filtered(s)[p + 3] == s[p + 3]
  {
  }

  /** Filtering an already filtered buffer changes nothing. */
  lemma FilteredIdempotent(s: seq<byte>)
    ensures Filtered(Filtered(s)) == Filtered(s)
  {
    var f := Filtered(s);
    forall k | 0 <= k < |s| ensures Filtered(f)[k] == f[k] {
      if k % 4 == 3 && NearBlack(f, k - 3) {
        assert f[k - 3] == s[k - 3] && f[k - 2] == s[k - 2] && f[k - 1] == s[k - 1];
      }
    }
  }

  /**
   * The loop of `TransparentBlackPixels`, in place on the pixel array: it
   * looks at the pixels starting at 0, 4, 8, ... below the length. A read
   * past the end is `undefined`, which compares false, and a write past the
   * end of a typed array is dropped. `visited` lists the pixel starts in the
   * order the loop takes them.
   */
  method ClearBlackAlpha(pixels: array<byte>) returns (ghost visited: seq<int>)
    modifies pixels
    ensures pixels[..] == Filtered(old(pixels[..]))
    ensures |visited| == (pixels.Length + 3) / 4
    ensures forall j :: 0 <= j < |visited| ==> visited[j] == 4 * j
  {
    ghost var original := pixels[..];
    visited := [];
    var i := 0;
    while i < pixels.Length
      invariant 0 <= i <= pixels.Length + 3 && i % 4 == 0
      invariant |visited| == i / 4
      invariant forall j :: 0 <= j < |visited| ==> visited[j] == 4 * j
      invariant forall k :: 0 <= k < i && k < pixels.Length ==> pixels[k] == Filtered(original)[k]
      invariant forall k :: i <= k < pixels.Length ==> pixels[k] == original[k]
    {
      visited := visited + [i];
      if i + 2 < pixels.Length && pixels[i] <= 1 && pixels[i + 1] <= 1 && pixels[i + 2] <= 1 {
        if i + 3 < pixels.Length {
          pixels[i + 3] := 0;
        }
      }
      i := i + 4;
    }
  }

  /** What the canvas context sees, in order. */
  datatype CanvasEvent = PutImageData(data: seq<byte>) | Done

  /** The canvas a filter runs on: its pixel bytes and the calls made to it and to `done`. */
  class Canvas {
    var data: seq<byte>
    var log: seq<CanvasEvent>

    constructor (data: seq<byte>)
      ensures this.data == data && log == []
    {
      this.data := data;
      log := [];
    }
  }

  /**
   * `TransparentBlackPixels(ctx, done)`: copies the canvas pixels out,
   * clears the alpha of near-black pixels, writes the copy back, and then
   * calls `done` exactly once.
   */
  method TransparentBlackPixels(ctx: Canvas)
    modifies ctx
    ensures ctx.data == Filtered(old(ctx.data))
    ensures |ctx.data| == |old(ctx.data)|
    ensures ctx.log == old(ctx.log) + [PutImageData(ctx.data), Done]
  {
    var snapshot := ctx.data;
    var pixels := new byte[|snapshot|](k requires 0 <= k < |snapshot| => snapshot[k]);
    assert pixels[..] == snapshot;
    var _ := ClearBlackAlpha(pixels);
    ctx.data := pixels[..];
    ctx.log := ctx.log + [PutImageData(ctx.data)];
    ctx.log := ctx.log + [Done];
  }
}
