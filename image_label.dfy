/** The selection rectangle the video label lets the user drag: a press
    remembers the start, each move while pressed spans the rectangle from
    the start to the cursor clamped into the label, a release ends the
    drag, and enabling selection starts from a centred box. */
module ImageLabels {
  import opened Common

  /** The cursor coordinate moved into [0, size - 1] (into 0 for an empty
      label). */
  function Clamp(v: int, size: int): (r: int)
    ensures 0 <= r
    ensures size >= 1 ==> r <= size - 1
    ensures 0 <= v < size ==> r == v
    ensures v >= size ==> r == if size >= 1 then size - 1 else 0
    ensures v < 0 ==> r == 0
  {
    var c := if v < size then v else size - 1;
    if c > 0 then c else 0
  }

  /** One axis of the dragged rectangle: where it starts and how long it
      is. */
  datatype Span = Span(start: int, length: int)

  /** The axis spanned by the press position and the cursor, in either
      order. */
  function SpanOf(pressed: int, cursor: int): (s: Span)
    ensures s.length >= 0
    ensures s.start == (if pressed < cursor then pressed else cursor)
    ensures s.start + s.length == (if pressed < cursor then cursor else pressed)
  {
    if pressed < cursor then Span(pressed, cursor - pressed)
    else Span(cursor, pressed - cursor)
  }

  /** Spanning does not depend on which end was pressed. */
  lemma SpanSymmetric(a: int, b: int)
    ensures SpanOf(a, b) == SpanOf(b, a)
  {
  }

  /** A drag pressed inside the label stays inside it, wherever the cursor
      goes. */
  lemma DragStaysInLabel(pressed: int, cursor: int, size: int)
    requires 0 <= pressed < size
    ensures var s := SpanOf(pressed, Clamp(cursor, size));
      0 <= s.start && s.start + s.length <= size - 1
  {
  }

  /** The box `set_selection_enabled(true)` starts from on an image of
      `w` by `h`: half the size in each axis, offset by a quarter. */
  function CentredSelection(w: nat, h: nat): (b: Box)
    ensures b.width == w / 2 && b.height == h / 2 && b.angle == 0.0
    ensures 0 <= b.x && b.x + b.width <= w && 0 <= b.y && b.y + b.height <= h
    ensures -1 <= b.x - (w - b.x - b.width) <= 1
    ensures -1 <= b.y - (h - b.y - b.height) <= 1
  {
    var width := w / 2;
    var height := h / 2;
    Box(w / 2 - width / 2, h / 2 - height / 2, width, height, 0.0)
  }

  class ImageLabel {
    var selectionEnabled: bool
    var isPressed: bool
    var posX: int
    var posY: int
    /** The label's own size. */
    var labelWidth: nat
    var labelHeight: nat
    /** The size of the scaled image shown in the label. */
    var imageWidth: nat
    var imageHeight: nat
    /** The image size the selection refers to. */
    var scaledWidth: int
    var scaledHeight: int
    var selection: Box

    /** A drag is only ever in progress while selection is enabled, and the
        rectangle never has a negative side. */
    predicate Valid()
      reads this
    {
      (isPressed ==> selectionEnabled) && selection.width >= 0 && selection.height >= 0
    }

    /** Fields the constructor leaves uninitialised are taken as zero. */
    constructor ()
      ensures Valid()
      ensures !selectionEnabled && !isPressed && selection.angle == 0.0
    {
      selectionEnabled := false;
      isPressed := false;
      posX, posY := 0, 0;
      labelWidth, labelHeight := 0, 0;
      imageWidth, imageHeight := 0, 0;
      scaledWidth, scaledHeight := 0, 0;
      selection := Box(0, 0, 0, 0, 0.0);
    }

    /** `set_image` as far as sizes go: the scaled image and the label's
        size; the repaint is not modelled. */
    method SetImage(scaledImageWidth: nat, scaledImageHeight: nat)
      requires Valid()
      modifies this
      ensures Valid()
      ensures imageWidth == scaledImageWidth && imageHeight == scaledImageHeight
      ensures labelWidth == scaledImageWidth && labelHeight == scaledImageHeight
      ensures selectionEnabled == old(selectionEnabled) && isPressed == old(isPressed)
      ensures selection == old(selection) && posX == old(posX) && posY == old(posY)
      ensures scaledWidth == old(scaledWidth) && scaledHeight == old(scaledHeight)
    {
      imageWidth, imageHeight := scaledImageWidth, scaledImageHeight;
      labelWidth, labelHeight := scaledImageWidth, scaledImageHeight;
    }

    /** `resizeEvent`: no drag survives a resize. */
    method ResizeEvent(newWidth: nat, newHeight: nat)
      requires Valid()
      modifies this
      ensures Valid() && !isPressed
      ensures labelWidth == newWidth && labelHeight == newHeight
      ensures selectionEnabled == old(selectionEnabled) && selection == old(selection)
      ensures imageWidth == old(imageWidth) && imageHeight == old(imageHeight)
      ensures posX == old(posX) && posY == old(posY)
      ensures scaledWidth == old(scaledWidth) && scaledHeight == old(scaledHeight)
    {
      isPressed := false;
      labelWidth, labelHeight := newWidth, newHeight;
    }

    /** `mousePressEvent`: remembers where the drag starts. */
    method MousePress(x: int, y: int)
      requires Valid()
      modifies this
      ensures Valid()
      ensures !old(selectionEnabled) ==> isPressed == old(isPressed) && posX == old(posX) && posY == old(posY)
      ensures old(selectionEnabled) ==> isPressed && posX == x && posY == y
      ensures selectionEnabled == old(selectionEnabled) && selection == old(selection)
      ensures labelWidth == old(labelWidth) && labelHeight == old(labelHeight)
      ensures imageWidth == old(imageWidth) && imageHeight == old(imageHeight)
      ensures scaledWidth == old(scaledWidth) && scaledHeight == old(scaledHeight)
    {
      if !selectionEnabled {
        return;
      }
      isPressed := true;
      posX := x;
      posY := y;
    }

    /** `mouseReleaseEvent`: ends the drag; the rectangle stays. */
    method MouseRelease()
      requires Valid()
      modifies this
      ensures Valid()
      ensures isPressed == (old(isPressed) && !old(selectionEnabled))
      ensures selectionEnabled == old(selectionEnabled) && selection == old(selection)
      ensures posX == old(posX) && posY == old(posY)
      ensures labelWidth == old(labelWidth) && labelHeight == old(labelHeight)
      ensures imageWidth == old(imageWidth) && imageHeight == old(imageHeight)
      ensures scaledWidth == old(scaledWidth) && scaledHeight == old(scaledHeight)
    {
      if !selectionEnabled {
        return;
      }
      isPressed := false;
    }

    /** `mouseMoveEvent`: while a drag is in progress, the rectangle spans
        the press position and the clamped cursor, and refers to the
        current image size. */
    method MouseMove(x: int, y: int)
      requires Valid()
      modifies this
      ensures Valid()
      ensures !(old(selectionEnabled) && old(isPressed)) ==>
        selection == old(selection) && scaledWidth == old(scaledWidth) && scaledHeight == old(scaledHeight)
      ensures old(selectionEnabled) && old(isPressed) ==>
        var sx := SpanOf(posX, Clamp(x, labelWidth));
        var sy := SpanOf(posY, Clamp(y, labelHeight));
        && selection == old(selection).(x := sx.start, width := sx.length, y := sy.start, height := sy.length)
        && scaledWidth == imageWidth && scaledHeight == imageHeight
      ensures selectionEnabled == old(selectionEnabled) && isPressed == old(isPressed)
      ensures posX == old(posX) && posY == old(posY)
      ensures labelWidth == old(labelWidth) && labelHeight == old(labelHeight)
      ensures imageWidth == old(imageWidth) && imageHeight == old(imageHeight)
    {
      if !selectionEnabled {
        return;
      }
      if !isPressed {
        return;
      }
      var curX := if x < labelWidth then x else labelWidth - 1;
      var curY := if y < labelHeight then y else labelHeight - 1;
      curX := if curX > 0 then curX else 0;
      curY := if curY > 0 then curY else 0;
      scaledWidth := imageWidth;
      scaledHeight := imageHeight;
      if posX < curX {
        selection := selection.(x := posX, width := curX - posX);
      } else {
        selection := selection.(x := curX, width := posX - curX);
      }
      if posY < curY {
        selection := selection.(y := posY, height := curY - posY);
      } else {
        selection := selection.(y := curY, height := posY - curY);
      }
    }

    /** `set_selection_enabled`: disabling ends any drag; enabling starts
        from the centred box on the current image. */
    method SetSelectionEnabled(enabled: bool)
      requires Valid()
      modifies this
      ensures Valid()
      ensures selectionEnabled == enabled
      ensures !enabled ==> !isPressed && selection == old(selection)
      ensures !enabled ==> scaledWidth == old(scaledWidth) && scaledHeight == old(scaledHeight)
      ensures enabled ==> isPressed == old(isPressed)
      ensures enabled ==> scaledWidth == imageWidth && scaledHeight == imageHeight
      ensures enabled ==> selection == CentredSelection(imageWidth, imageHeight)
      ensures posX == old(posX) && posY == old(posY)
      ensures labelWidth == old(labelWidth) && labelHeight == old(labelHeight)
      ensures imageWidth == old(imageWidth) && imageHeight == old(imageHeight)
    {
      selectionEnabled := enabled;
      if !enabled {
        isPressed := false;
      } else {
        scaledWidth := imageWidth;
        scaledHeight := imageHeight;
        var width := scaledWidth / 2;
        var height := scaledHeight / 2;
        selection := Box(scaledWidth / 2 - width / 2, scaledHeight / 2 - height / 2, width, height, 0.0);
      }
    }
  }
}
