/** The per-page annotation engine: screen/document coordinate mapping,
    the gesture state machine driven by mouse down, move and up, the
    commit rules for strokes and reveal windows, and the eraser. */
module PdfPage {
  import opened Types

  /** Reach of the eraser beyond half a stroke's width, in document units. */
  const ERASER_RADIUS: real := 10.0
  /** A reveal window is kept only if strictly wider and taller than this (screen pixels). */
  const MIN_REVEAL_SIZE: real := 5.0
  /** The correction raster is never rendered below this zoom ... */
  const MIN_RASTER_ZOOM: real := 1.5
  /** ... and is then oversampled by this factor. */
  const OVERSAMPLING: real := 2.0

  /** A screen-space rectangle (the live selection). */
  datatype Rect = Rect(x: real, y: real, w: real, h: real)

  function Min(a: real, b: real): real { if a <= b then a else b }

  function Max(a: real, b: real): real { if a <= b then b else a }

  function Abs(a: real): real { if a < 0.0 then -a else a }

  // ---------------------------------------------------------------------
  // Coordinate spaces
  // ---------------------------------------------------------------------

  /** Screen space to document space: divide by the zoom. */
  function ToDocument(p: Point, scale: real): (q: Point)
    requires scale > 0.0
    ensures q.x * scale == p.x && q.y * scale == p.y
  {
    Point(p.x / scale, p.y / scale)
  }

  /** Document space to screen space, as the painter places stored vertices. */
  function ToScreen(p: Point, scale: real): (q: Point)
    requires scale > 0.0
    ensures ToDocument(q, scale) == p
  {
    Point(p.x * scale, p.y * scale)
  }

  /** Zooming from s1 to s2 moves every painted vertex by the factor s2/s1;
      the stored vertex itself is not touched. */
  lemma RescaledRendering(p: Point, s1: real, s2: real)
    requires s1 > 0.0 && s2 > 0.0
    ensures ToScreen(p, s2).x == ToScreen(p, s1).x * (s2 / s1)
    ensures ToScreen(p, s2).y == ToScreen(p, s1).y * (s2 / s1)
  {
  }

  /** A captured screen path in document space (the `map` at commit time). */
  function ScalePoints(path: seq<Point>, scale: real): (r: seq<Point>)
    requires scale > 0.0
    ensures |r| == |path|
    ensures forall i :: 0 <= i < |path| ==> ToScreen(r[i], scale) == path[i]
  {
    if path == [] then []
    else ScalePoints(path[..|path| - 1], scale) + [ToDocument(path[|path| - 1], scale)]
  }

  /** The zoom at which the correction page is rasterised for the reveal windows. */
  function CorrectionRenderScale(scale: real): (r: real)
    ensures r >= OVERSAMPLING * MIN_RASTER_ZOOM && r >= OVERSAMPLING * scale
    ensures r == OVERSAMPLING * MIN_RASTER_ZOOM || r == OVERSAMPLING * scale
  {
    Max(scale, MIN_RASTER_ZOOM) * OVERSAMPLING
  }

  lemma CorrectionRasterAtLeastThree(scale: real)
    ensures CorrectionRenderScale(scale) >= 3.0
  {
  }

  // ---------------------------------------------------------------------
  // Selection rectangles
  // ---------------------------------------------------------------------

  /** The selection spanned by the anchor and the pointer, whichever way the drag goes. */
  function DragRect(anchor: Point, pointer: Point): (r: Rect)
    ensures r.w >= 0.0 && r.h >= 0.0
    ensures r.x == Min(anchor.x, pointer.x) && r.y == Min(anchor.y, pointer.y)
    ensures r.x + r.w == Max(anchor.x, pointer.x) && r.y + r.h == Max(anchor.y, pointer.y)
  {
    var w := pointer.x - anchor.x;
    var h := pointer.y - anchor.y;
    Rect(if w > 0.0 then anchor.x else pointer.x,
         if h > 0.0 then anchor.y else pointer.y,
         Abs(w), Abs(h))
  }

  /** Dragging from a to b or from b to a selects the same rectangle. */
  lemma DragDirectionIrrelevant(a: Point, b: Point)
    ensures DragRect(a, b) == DragRect(b, a)
  {
  }

  /** A rectangle of non-negative size with `a` at one of its corners. */
  predicate AnchoredAt(r: Rect, a: Point)
  {
    && r.w >= 0.0 && r.h >= 0.0
    && (r.x == a.x || r.x + r.w == a.x)
    && (r.y == a.y || r.y + r.h == a.y)
  }

  // ---------------------------------------------------------------------
  // Committing a gesture
  // ---------------------------------------------------------------------

  /** What mouse-up hands to the page's add callback, if anything. */
  function Commit(tool: ToolType, path: seq<Point>, rect: Option<Rect>,
                  settings: ToolSettings, scale: real, id: string): (r: Option<Annotation>)
    requires scale > 0.0
    ensures (r.Some? && r.value.Path?) <==> IsPen(tool) && |path| > 1
    ensures (r.Some? && r.value.Correction?) <==>
              tool == SelectCorrection && rect.Some?
              && rect.value.w > MIN_REVEAL_SIZE && rect.value.h > MIN_REVEAL_SIZE
    ensures r.Some? ==> r.value.id == id
    ensures r.Some? && r.value.Path? ==>
              && |r.value.points| == |path|
              && (forall i :: 0 <= i < |path| ==> ToScreen(r.value.points[i], scale) == path[i])
              && r.value.color == settings.color
              && r.value.width == settings.width
              && r.value.opacity == settings.opacity
    ensures r.Some? && r.value.Correction? ==>
              && r.value.x * scale == rect.value.x && r.value.y * scale == rect.value.y
              && r.value.w * scale == rect.value.w && r.value.h * scale == rect.value.h
  {
    if IsPen(tool) && |path| > 1 then
      Some(Path(id, ScalePoints(path, scale), settings.color, settings.width, settings.opacity))
    else if tool == SelectCorrection && rect.Some?
            && rect.value.w > MIN_REVEAL_SIZE && rect.value.h > MIN_REVEAL_SIZE then
      Some(Correction(id, rect.value.x / scale, rect.value.y / scale,
                      rect.value.w / scale, rect.value.h / scale))
    else
      None
  }

  // ---------------------------------------------------------------------
  // The eraser
  // ---------------------------------------------------------------------

  /** Vertex p is within reach of the eraser at c (both in document space):
      sqrt(dx*dx + dy*dy) < width/2 + ERASER_RADIUS, compared squared,
      which is the same test because a square root is never negative. */
  predicate Near(p: Point, c: Point, width: real)
  {
    var reach := width / 2.0 + ERASER_RADIUS;
    var dx := p.x - c.x;
    var dy := p.y - c.y;
    0.0 < reach && dx * dx + dy * dy < reach * reach
  }

  /** The eraser at c hits this annotation: a stroke with some vertex near c.
      Reveal windows are never hit. */
  predicate StrokeHit(a: Annotation, c: Point)
  {
    a.Path? && exists i :: 0 <= i < |a.points| && Near(a.points[i], c, a.width)
  }

  /** The ids the eraser at c asks to remove, in annotation order. */
  function HitIds(anns: seq<Annotation>, c: Point): seq<string>
  {
    if anns == [] then []
    else
      var last := anns[|anns| - 1];
      HitIds(anns[..|anns| - 1], c) + (if StrokeHit(last, c) then [last.id] else [])
  }

  /** An id is requested for removal exactly when it is the id of a hit stroke. */
  lemma {:induction false} HitIdsAreHitStrokes(anns: seq<Annotation>, c: Point, id: string)
    ensures id in HitIds(anns, c) <==>
              exists j :: 0 <= j < |anns| && anns[j].id == id && StrokeHit(anns[j], c)
  {
    if anns != [] {
      var init := anns[..|anns| - 1];
      HitIdsAreHitStrokes(init, c, id);
      assert forall j :: 0 <= j < |init| ==> init[j] == anns[j];
    }
  }

  /** The annotations an eraser step at c leaves, in order. */
  function Unhit(anns: seq<Annotation>, c: Point): (r: seq<Annotation>)
    ensures forall a :: a in r <==> a in anns && !StrokeHit(a, c)
  {
    if anns == [] then []
    else
      var last := anns[|anns| - 1];
      assert anns == anns[..|anns| - 1] + [last];
      Unhit(anns[..|anns| - 1], c) + (if StrokeHit(last, c) then [] else [last])
  }

  /** The eraser leaves every reveal window in place. */
  lemma UnhitKeepsCorrections(anns: seq<Annotation>, c: Point, a: Annotation)
    requires a in anns && a.Correction?
    ensures a in Unhit(anns, c)
  {
  }

  /** One stroke's vertex scan: is some vertex within reach of c? */
  method PathHitAt(points: seq<Point>, width: real, c: Point) returns (hit: bool)
    ensures hit <==> exists i :: 0 <= i < |points| && Near(points[i], c, width)
  {
    hit := false;
    var k := 0;
    while k < |points|
      invariant 0 <= k <= |points|
      invariant forall i :: 0 <= i < k ==> !Near(points[i], c, width)
    {
      if Near(points[k], c, width) {
        hit := true;
        break;
      }
      k := k + 1;
    }
  }

  /** checkEraserCollision: the ids of the strokes hit by the eraser at screen
      point (x, y), in the order the removal callback is invoked. */
  method CheckEraserCollision(annotations: seq<Annotation>, x: real, y: real, scale: real)
    returns (removed: seq<string>)
    requires scale > 0.0
    ensures removed == HitIds(annotations, ToDocument(Point(x, y), scale))
  {
    var c := Point(x / scale, y / scale);
    removed := [];
    var k := 0;
    while k < |annotations|
      invariant 0 <= k <= |annotations|
      invariant removed == HitIds(annotations[..k], c)
    {
      var ann := annotations[k];
      assert annotations[..k + 1][..k] == annotations[..k];
      if ann.Path? {
        var hit := PathHitAt(ann.points, ann.width, c);
        if hit {
          removed := removed + [ann.id];
        }
      }
      k := k + 1;
    }
    assert annotations[..k] == annotations;
  }

  // ---------------------------------------------------------------------
  // The gesture state machine of one page
  // ---------------------------------------------------------------------

  /** The gesture fields of one page (all in screen space). The page's props
      (tool, settings, scale, annotations) are passed to each handler; the
      add/remove callbacks are the handlers' results. Mouse-leave runs MouseUp. */
  class PageGesture {
    var isDrawing: bool
    var currentPath: seq<Point>
    var selectionStart: Option<Point>
    var currentRect: Option<Rect>

    /** No partial gesture is held between gestures; a live rectangle exists
        exactly when an anchor does, and has that anchor as a corner. */
    ghost predicate Valid()
      reads this
    {
      && (!isDrawing ==> currentPath == [] && selectionStart.None? && currentRect.None?)
      && (selectionStart.Some? <==> currentRect.Some?)
      && (currentRect.Some? ==> AnchoredAt(currentRect.value, selectionStart.value))
    }

    constructor ()
      ensures Valid()
      ensures !isDrawing && currentPath == [] && selectionStart == None && currentRect == None
    {
      isDrawing := false;
      currentPath := [];
      selectionStart := None;
      currentRect := None;
    }

    /** handleMouseDown at screen point `coords`; returns the ids the eraser removes. */
    method MouseDown(tool: ToolType, coords: Point, scale: real, annotations: seq<Annotation>)
      returns (removed: seq<string>)
      requires Valid() && scale > 0.0
      modifies this
      ensures Valid()
      ensures tool == NoTool ==> unchanged(this) && removed == []
      ensures tool != NoTool ==> isDrawing
      ensures tool == Eraser ==>
                && removed == HitIds(annotations, ToDocument(coords, scale))
                && currentPath == old(currentPath)
                && selectionStart == old(selectionStart) && currentRect == old(currentRect)
      ensures IsPen(tool) ==>
                && currentPath == [coords] && removed == []
                && selectionStart == old(selectionStart) && currentRect == old(currentRect)
      ensures tool == SelectCorrection ==>
                && selectionStart == Some(coords)
                && currentRect == Some(Rect(coords.x, coords.y, 0.0, 0.0))
                && currentPath == old(currentPath) && removed == []
    {
      removed := [];
      if tool == Eraser {
        isDrawing := true;
        removed := CheckEraserCollision(annotations, coords.x, coords.y, scale);
        return;
      }
      if tool == NoTool {
        return;
      }
      isDrawing := true;
      if tool == Draw || tool == Highlight {
        currentPath := [coords];
      } else if tool == SelectCorrection {
        selectionStart := Some(coords);
        currentRect := Some(Rect(coords.x, coords.y, 0.0, 0.0));
      }
    }

    /** handleMouseMove at screen point `coords`; returns the ids the eraser removes. */
    method MouseMove(tool: ToolType, coords: Point, scale: real, annotations: seq<Annotation>)
      returns (removed: seq<string>)
      requires Valid() && scale > 0.0
      modifies this
      ensures Valid()
      ensures !old(isDrawing) || tool == NoTool ==> unchanged(this) && removed == []
      ensures old(isDrawing) && tool == Eraser ==>
                unchanged(this) && removed == HitIds(annotations, ToDocument(coords, scale))
      ensures old(isDrawing) && IsPen(tool) ==>
                && currentPath == old(currentPath) + [coords] && removed == []
                && isDrawing && selectionStart == old(selectionStart) && currentRect == old(currentRect)
      ensures old(isDrawing) && tool == SelectCorrection ==>
                && removed == []
                && currentRect == (if old(selectionStart).Some?
                                   then Some(DragRect(old(selectionStart).value, coords))
                                   else old(currentRect))
                && isDrawing && currentPath == old(currentPath) && selectionStart == old(selectionStart)
    {
      removed := [];
      if !isDrawing {
        return;
      }
      if tool == Eraser {
        removed := CheckEraserCollision(annotations, coords.x, coords.y, scale);
      } else if tool == Draw || tool == Highlight {
        currentPath := currentPath + [coords];
      } else if tool == SelectCorrection && selectionStart.Some? {
        var start := selectionStart.value;
        var w := coords.x - start.x;
        var h := coords.y - start.y;
        currentRect := Some(Rect(if w > 0.0 then start.x else coords.x,
                                 if h > 0.0 then start.y else coords.y,
                                 Abs(w), Abs(h)));
      }
    }

    /** handleMouseUp (also mouse-leave): commits the gesture and resets the fields;
        returns the annotation handed to the add callback, if any. */
    method MouseUp(tool: ToolType, settings: ToolSettings, scale: real, newId: string)
      returns (added: Option<Annotation>)
      requires Valid() && scale > 0.0
      modifies this
      ensures Valid()
      ensures !old(isDrawing) ==> unchanged(this) && added == None
      ensures old(isDrawing) ==>
                added == Commit(tool, old(currentPath), old(currentRect), settings, scale, newId)
      ensures !isDrawing && currentPath == [] && selectionStart == None && currentRect == None
    {
      added := None;
      if !isDrawing {
        return;
      }
      isDrawing := false;
      if tool == Eraser {
        // erasing already happened on down and move
      } else if (tool == Draw || tool == Highlight) && |currentPath| > 1 {
        added := Some(Path(newId, ScalePoints(currentPath, scale),
                           settings.color, settings.width, settings.opacity));
      } else if tool == SelectCorrection && currentRect.Some?
                && currentRect.value.w > MIN_REVEAL_SIZE && currentRect.value.h > MIN_REVEAL_SIZE {
        var r := currentRect.value;
        added := Some(Correction(newId, r.x / scale, r.y / scale, r.w / scale, r.h / scale));
      }
      currentPath := [];
      selectionStart := None;
      currentRect := None;
    }
  }
}
