/** The pattern-drawing card (`setupPattern`): the pen state, the chosen tool,
    colour and brush size, and the drawing context's settings. What is painted
    is kept as the list of line segments stroked since the canvas was last
    cleared; pixels are not modelled. Pointer
    positions arrive already converted to canvas coordinates. */
module Drawing {
  import opened Locations

  /** `globalCompositeOperation`: painting over, or erasing what is under. */
  datatype Composite = SourceOver | DestinationOut

  datatype Point = Point(x: int, y: int)

  /** One `stroke()` of a segment, with the context settings it was drawn with. */
  datatype Segment = Segment(from: Point, to: Point, width: int, composite: Composite, color: string)

  /** The colour, brush size and tool the card offers, and the drawing
      context's settings. */
  datatype Settings = Settings(color: string, size: int, tool: string, composite: Composite, strokeStyle: string)

  const DefaultBrushSize: int := 10
  /** The drawing context's initial `strokeStyle`. */
  const DefaultStrokeStyle: string := "#000000"
  const Brush: string := "brush"
  const Eraser: string := "eraser"

  class DrawingPad {
    var isDrawing: bool
    var last: Point
    var currentColor: string
    var brushSize: int
    var currentTool: string
    // the drawing context's settings, which persist between strokes
    var composite: Composite
    var strokeStyle: string
    /** The segments stroked since the canvas was last cleared. */
    var segments: seq<Segment>
    /** Where the segments of the current pen-down begin. */
    ghost var pathStart: nat

    /** The segments drawn since the pen last went down join end to start, and
        the last one ends at the pen's position. */
    ghost predicate Valid()
      reads this
    {
      && pathStart <= |segments|
      && (forall k :: pathStart < k < |segments| ==> segments[k].from == segments[k - 1].to)
      && (pathStart < |segments| ==> segments[|segments| - 1].to == last)
    }

    /** The pen's settings, everything but the pen and the drawing. */
    function Current(): Settings
      reads this
    {
      Settings(currentColor, brushSize, currentTool, composite, strokeStyle)
    }

    /** The card as set up for a location: the brush in the location's primary
        colour at size 10, and a blank canvas. The context starts with the
        Canvas 2D defaults: painting over, in black. */
    constructor (loc: Location)
      ensures Valid()
      ensures !isDrawing && last == Point(0, 0) && segments == []
      ensures Current() == Settings(PrimaryColor(loc), DefaultBrushSize, Brush, SourceOver, DefaultStrokeStyle)
    {
      isDrawing := false;
      last := Point(0, 0);
      currentColor := PrimaryColor(loc);
      brushSize := DefaultBrushSize;
      currentTool := Brush;
      composite := SourceOver;
      strokeStyle := DefaultStrokeStyle;
      segments := [];
      pathStart := 0;
    }

    /** `updateBrushSize`, from the slider: stored as given. */
    method UpdateBrushSize(size: int)
      modifies this
      ensures Current() == old(Current()).(size := size)
      ensures segments == old(segments) && isDrawing == old(isDrawing) && last == old(last)
    {
      brushSize := size;
    }

    /** The colour picker, or a preset colour with a non-empty `data-color`. */
    method PickColor(color: string)
      modifies this
      ensures Current() == (if color != "" then old(Current()).(color := color) else old(Current()))
      ensures segments == old(segments) && isDrawing == old(isDrawing) && last == old(last)
    {
      if color != "" {
        currentColor := color;
      }
    }

    /** A tool button; a button without a `data-tool` does nothing. */
    method SelectTool(tool: string)
      modifies this
      ensures Current() == (if tool != "" then old(Current()).(tool := tool) else old(Current()))
      ensures segments == old(segments) && isDrawing == old(isDrawing) && last == old(last)
    {
      if tool != "" {
        currentTool := tool;
      }
    }

    /** `startDrawing`: the pen goes down at `p`; nothing is painted yet. */
    method StartDrawing(p: Point)
      requires Valid()
      modifies this
      ensures Valid()
      ensures isDrawing && last == p && segments == old(segments)
      ensures Current() == old(Current())
    {
      isDrawing := true;
      last := p;
      pathStart := |segments|;
    }

    /** `draw`: one segment from the last point to `p`, with the brush size as
        its width; the brush paints in the current colour, the eraser erases,
        and any other tool keeps the context's previous settings. */
    method Draw(p: Point)
      requires Valid()
      modifies this
      ensures Valid()
      ensures composite == (if currentTool == Brush then SourceOver
                            else if currentTool == Eraser then DestinationOut
                            else old(composite))
      ensures strokeStyle == (if currentTool == Brush then currentColor else old(strokeStyle))
      ensures segments == old(segments) + [Segment(old(last), p, brushSize, composite, strokeStyle)]
      ensures last == p && isDrawing == old(isDrawing)
      ensures currentColor == old(currentColor) && brushSize == old(brushSize) && currentTool == old(currentTool)
    {
      if currentTool == Brush {
        composite := SourceOver;
        strokeStyle := currentColor;
      } else if currentTool == Eraser {
        composite := DestinationOut;
      }
      segments := segments + [Segment(last, p, brushSize, composite, strokeStyle)];
      last := p;
    }

    /** `continueDrawing`: draws to `p` only while the pen is down. */
    method ContinueDrawing(p: Point)
      requires Valid()
      modifies this
      ensures Valid()
      ensures old(isDrawing) ==>
        && composite == (if currentTool == Brush then SourceOver
                         else if currentTool == Eraser then DestinationOut
                         else old(composite))
        && strokeStyle == (if currentTool == Brush then currentColor else old(strokeStyle))
        && segments == old(segments) + [Segment(old(last), p, brushSize, composite, strokeStyle)]
        && last == p
      ensures !old(isDrawing) ==> Current() == old(Current()) && segments == old(segments) && last == old(last)
      ensures currentColor == old(currentColor) && brushSize == old(brushSize) && currentTool == old(currentTool)
      ensures isDrawing == old(isDrawing)
    {
      if !isDrawing {
        return;
      }
      Draw(p);
    }

    /** `stopDrawing`: mouseup, mouseleave or touchend. */
    method StopDrawing()
      requires Valid()
      modifies this
      ensures Valid()
      ensures !isDrawing && segments == old(segments) && last == old(last)
      ensures Current() == old(Current())
    {
      isDrawing := false;
    }

    /** The clear button: nothing drawn remains, and the pen state and the
        context's settings are untouched. Its fill runs under the current
        `composite`, so it paints the background colour under `SourceOver` but,
        once the eraser has drawn (`DestinationOut`), leaves the canvas
        transparent instead. */
    method Clear()
      requires Valid()
      modifies this
      ensures Valid()
      ensures segments == [] && isDrawing == old(isDrawing) && last == old(last)
      ensures Current() == old(Current())
    {
      segments := [];
      pathStart := 0;
    }
  }
}
