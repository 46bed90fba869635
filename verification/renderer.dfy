/**
  The 64 x 32 monochrome framebuffer owned by the renderer.

  A fresh JavaScript `Array(2048)` holds `undefined` in every cell; `undefined ^ 1`
  is 1, `1 ^ 1` is 0 and both `undefined` and 0 are falsy, so every cell is modelled
  as a boolean that starts `false` and is flipped by each toggle. Canvas drawing is
  not modelled.
 */
module Renderer {

  const Cols: nat := 64
  const Rows: nat := 32
  const Size: nat := 2048

  /** The display array: one cell per pixel, row-major, `true` when lit. */
  type Frame = s: seq<bool> | |s| == 2048 witness seq(2048, _ => false)

  /** What `setPixel` leaves behind: the new frame and the erasure flag it returns. */
  datatype Toggle = Toggle(frame: Frame, erased: bool)

  /** Index of the cell addressed by (x, y) once both coordinates wrap. */
  function PixelIndex(x: nat, y: nat): (idx: nat)
    ensures idx < Size
    ensures idx % Cols == x % Cols && idx / Cols == y % Rows
  {
    x % Cols + (y % Rows) * Cols
  }

  /** True iff the pixel at (x, y), after wrapping, is lit. */
  predicate IsSet(f: Frame, x: nat, y: nat)
  {
    f[PixelIndex(x, y)]
  }

  /** The display array as the constructor and `clear` create it. */
  function Blank(): (f: Frame)
    ensures forall i :: 0 <= i < Size ==> !f[i]
    ensures forall x: nat, y: nat :: !IsSet(f, x, y)
  {
    seq(Size, _ => false)
  }

  /** Toggles one pixel and reports whether it was erased (lit before, dark now). */
  function SetPixel(f: Frame, x: nat, y: nat): (t: Toggle)
    ensures t.frame[PixelIndex(x, y)] == !f[PixelIndex(x, y)]
    ensures forall i :: 0 <= i < Size && i != PixelIndex(x, y) ==> t.frame[i] == f[i]
    ensures t.erased <==> f[PixelIndex(x, y)]
    ensures t.erased <==> !t.frame[PixelIndex(x, y)]
  {
    var idx := PixelIndex(x, y);
    var f' := f[idx := !f[idx]];
    Toggle(f', !f'[idx])
  }

  /** Replaces the display array with a fresh one. */
  function Clear(f: Frame): (r: Frame)
    ensures forall i :: 0 <= i < Size ==> !r[i]
    ensures forall x: nat, y: nat :: !IsSet(r, x, y)
  {
    Blank()
  }

  /** The demo pattern: toggles (0, 0) then (5, 2), flipping exactly those two cells. */
  function TestRenderer(f: Frame): (r: Frame)
    ensures forall i :: 0 <= i < Size ==>
      (r[i] <==> (f[i] != (i == PixelIndex(0, 0) || i == PixelIndex(5, 2))))
  {
    SetPixel(SetPixel(f, 0, 0).frame, 5, 2).frame
  }

  /** Toggling the same pixel twice restores the frame, and the second call reports
      an erasure exactly when the first call lit the pixel. */
  lemma SetPixelTwice(f: Frame, x: nat, y: nat)
    ensures SetPixel(SetPixel(f, x, y).frame, x, y).frame == f
    ensures SetPixel(SetPixel(f, x, y).frame, x, y).erased <==> !SetPixel(f, x, y).erased
  {
    var t1 := SetPixel(f, x, y);
    var t2 := SetPixel(t1.frame, x, y);
    assert forall i :: 0 <= i < Size ==> t2.frame[i] == f[i];
  }

  /** Coordinates wrap: one more screen width or height addresses the same pixel. */
  lemma SetPixelWraps(f: Frame, x: nat, y: nat)
    ensures SetPixel(f, x + Cols, y) == SetPixel(f, x, y)
    ensures SetPixel(f, x, y + Rows) == SetPixel(f, x, y)
  {
    assert PixelIndex(x + Cols, y) == PixelIndex(x, y);
    assert PixelIndex(x, y + Rows) == PixelIndex(x, y);
  }

  /** Distinct on-screen coordinates address distinct cells. */
  lemma PixelIndexBijective(x1: nat, y1: nat, x2: nat, y2: nat)
    requires x1 < Cols && y1 < Rows && x2 < Cols && y2 < Rows
    ensures PixelIndex(x1, y1) == PixelIndex(x2, y2) <==> x1 == x2 && y1 == y2
  {
  }

  /** Every cell is addressed by its own column and row, so together with
      `PixelIndexBijective` on-screen coordinates and cells are in bijection. */
  lemma PixelIndexOnto(i: nat)
    requires i < Size
    ensures PixelIndex(i % Cols, i / Cols) == i
  {
  }

  /** On a cleared display the demo leaves exactly (0, 0) and (5, 2) lit. */
  lemma TestRendererOnBlank(f: Frame)
    ensures forall i :: 0 <= i < Size ==> (TestRenderer(Clear(f))[i] <==> i == 0 || i == 5 + 2 * Cols)
    ensures forall x: nat, y: nat :: x < Cols && y < Rows ==>
      (IsSet(TestRenderer(Clear(f)), x, y) <==> (x == 0 && y == 0) || (x == 5 && y == 2))
  {
  }
}
