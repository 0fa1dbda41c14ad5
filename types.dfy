/** The shared data model of the annotation workspace: tools, points,
    the two kinds of annotation, uploaded files and the project record. */
module Types {

  datatype Option<T> = None | Some(value: T)

  /** The active tool; exactly one is selected at a time.
      NoTool is the "move" tool, SelectCorrection draws reveal windows. */
  datatype ToolType = NoTool | SelectCorrection | Draw | Highlight | Eraser

  /** A pointer position or a stored stroke vertex. */
  datatype Point = Point(x: real, y: real)

  /** The tools that lay down freehand strokes. */
  predicate IsPen(tool: ToolType)
  {
    tool == Draw || tool == Highlight
  }

  /** Either a freehand stroke ('path') or a reveal window ('correction').
      Both carry an id; stored geometry is in document space. */
  datatype Annotation =
    | Path(id: string, points: seq<Point>, color: string, width: real, opacity: real)
    | Correction(id: string, x: real, y: real, w: real, h: real)

  /** Style applied to new strokes. */
  datatype ToolSettings = ToolSettings(color: string, width: real, opacity: real)

  /** What the browser hands over when a file is chosen. */
  datatype UploadedFile = UploadedFile(name: string, mimeType: string, content: seq<bv8>)

  datatype FileRole = NormalRole | CorrectionRole

  /** A stored file: its id, its name, the file itself and its role tag. */
  datatype AppFile = AppFile(id: string, name: string, blob: UploadedFile, role: FileRole)

  /** The persisted project: page number -> ordered annotations of that page.
      Either file reference may be absent in a stored record. */
  datatype ProjectData = ProjectData(
    id: string,
    timestamp: int,
    normalFile: Option<AppFile>,
    correctionFile: Option<AppFile>,
    annotations: map<int, seq<Annotation>>)

  /** Every annotation on a page carries a different id (uuids in practice). */
  predicate UniqueIds(anns: seq<Annotation>)
  {
    forall i, j :: 0 <= i < j < |anns| ==> anns[i].id != anns[j].id
  }
}
