/** The window's numeric settings: the list font size changed by the zoom
    shortcuts, and the size chosen while dragging the resize handle. */
module Window {

  /** `min_font_size`, `max_font_size` and the starting `font_size`. */
  const MinFontSize: int := 8
  const MaxFontSize: int := 20
  const DefaultFontSize: int := 11

  /** The smallest window, as passed to `minsize`, and the size the window
      opens with. */
  const MinWidth: int := 300
  const MinHeight: int := 400
  const InitialWidth: int := 350
  const InitialHeight: int := 500

  predicate FontSizeInRange(size: int)
  {
    MinFontSize <= size <= MaxFontSize
  }

  /** `increase_font_size`: one point larger unless already at the maximum. */
  function Increased(size: int): (r: int)
    ensures r == size || r == size + 1
    ensures r == size <==> size >= MaxFontSize
    ensures FontSizeInRange(size) ==> FontSizeInRange(r)
  {
    if size < MaxFontSize then size + 1 else size
  }

  /** `decrease_font_size`: one point smaller unless already at the minimum. */
  function Decreased(size: int): (r: int)
    ensures r == size || r == size - 1
    ensures r == size <==> size <= MinFontSize
    ensures FontSizeInRange(size) ==> FontSizeInRange(r)
  {
    if size > MinFontSize then size - 1 else size
  }

  /** The keyboard shortcuts: Control-plus and Control-equal zoom in,
      Control-minus zooms out. */
  datatype Zoom = ZoomIn | ZoomOut

  /** The font size after the given shortcuts, in order: it moves by at
      most one point per key. */
  function Zoomed(size: int, keys: seq<Zoom>): (r: int)
    ensures size - |keys| <= r <= size + |keys|
  {
    if keys == [] then size
    else
      var before := Zoomed(size, keys[..|keys| - 1]);
      if keys[|keys| - 1] == ZoomIn then Increased(before) else Decreased(before)
  }

  /** From any size in [8, 20], every sequence of shortcuts stays in [8, 20]. */
  lemma {:induction false} ZoomedStaysInRange(size: int, keys: seq<Zoom>)
    requires FontSizeInRange(size)
    ensures FontSizeInRange(Zoomed(size, keys))
  {
    if keys != [] {
      ZoomedStaysInRange(size, keys[..|keys| - 1]);
    }
  }

  /** Pressing zoom-in `n` times from a size in range reaches
      `min(size + n, 20)`: the size saturates at the maximum. */
  lemma {:induction false} ZoomInSaturates(size: int, n: nat)
    requires FontSizeInRange(size)
    ensures Zoomed(size, seq(n, _ => ZoomIn)) == if size + n <= MaxFontSize then size + n else MaxFontSize
  {
    if n > 0 {
      var keys := seq(n, _ => ZoomIn);
      assert keys[..n - 1] == seq(n - 1, _ => ZoomIn);
      ZoomInSaturates(size, n - 1);
    }
  }

  /** Pressing zoom-out `n` times from a size in range reaches
      `max(size - n, 8)`. */
  lemma {:induction false} ZoomOutSaturates(size: int, n: nat)
    requires FontSizeInRange(size)
    ensures Zoomed(size, seq(n, _ => ZoomOut)) == if size - n >= MinFontSize then size - n else MinFontSize
  {
    if n > 0 {
      var keys := seq(n, _ => ZoomOut);
      assert keys[..n - 1] == seq(n - 1, _ => ZoomOut);
      ZoomOutSaturates(size, n - 1);
    }
  }

  /** One side of the window in `do_resize`: the size when the drag started
      plus the pointer's displacement, but never below the minimum; that is,
      the maximum of the two. */
  function Extent(initial: int, delta: int, minimum: int): (r: int)
    ensures r >= minimum && r >= initial + delta
    ensures r == minimum || r == initial + delta
  {
    if initial + delta >= minimum then initial + delta else minimum
  }
}
