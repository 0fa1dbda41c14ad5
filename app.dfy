/** The application root: the project record and its annotation store,
    project creation, the reset, the gate between the upload screen and the
    workspace, and the tool, style and zoom state the toolbar sets. */
module App {
  import opened Types
  import PdfPage
  import PdfViewer
  import Storage
  import Toolbar
  import FileUpload

  const DEFAULT_SETTINGS: ToolSettings := ToolSettings("#ef4444", 2.0, 1.0)
  const DEFAULT_TOOL: ToolType := NoTool
  const DEFAULT_SCALE: real := 1.2

  /** The Pen preset is the start-up style. */
  lemma PenPresetIsDefault()
    ensures Toolbar.PEN_PRESET == DEFAULT_SETTINGS
  {
  }

  // ---------------------------------------------------------------------
  // The workspace gate
  // ---------------------------------------------------------------------

  datatype Screen = LoadingScreen | UploadScreen | WorkspaceScreen

  /** Which screen the root renders. */
  function ScreenFor(isLoading: bool, project: Option<ProjectData>): (s: Screen)
    ensures s == LoadingScreen <==> isLoading
    ensures s == WorkspaceScreen <==>
              && !isLoading && project.Some?
              && project.value.normalFile.Some? && project.value.correctionFile.Some?
  {
    if isLoading then LoadingScreen
    else if project.None? || project.value.normalFile.None? || project.value.correctionFile.None?
    then UploadScreen
    else WorkspaceScreen
  }

  // ---------------------------------------------------------------------
  // Project records
  // ---------------------------------------------------------------------

  /** A fresh project for the two uploaded files, created at time `now`. */
  function NewProject(projectId: string, normalId: string, correctionId: string, now: int,
                      normal: UploadedFile, correction: UploadedFile): (p: ProjectData)
    ensures p.id == projectId && p.timestamp == now && p.annotations == map[]
    ensures p.normalFile.Some? && p.normalFile.value.role == NormalRole
    ensures p.normalFile.value.id == normalId
    ensures p.normalFile.value.name == normal.name && p.normalFile.value.blob == normal
    ensures p.correctionFile.Some? && p.correctionFile.value.role == CorrectionRole
    ensures p.correctionFile.value.id == correctionId
    ensures p.correctionFile.value.name == correction.name && p.correctionFile.value.blob == correction
    ensures ScreenFor(false, Some(p)) == WorkspaceScreen
  {
    ProjectData(
      projectId, now,
      Some(AppFile(normalId, normal.name, normal, NormalRole)),
      Some(AppFile(correctionId, correction.name, correction, CorrectionRole)),
      map[])
  }

  /** p and q agree on id, timestamp and both file references. */
  ghost predicate SameRecord(p: ProjectData, q: ProjectData)
  {
    && q.id == p.id && q.timestamp == p.timestamp
    && q.normalFile == p.normalFile && q.correctionFile == p.correctionFile
  }

  /** q differs from p at most in the annotations of page `page`, which q holds. */
  ghost predicate SameExceptPage(p: ProjectData, q: ProjectData, page: int)
  {
    && SameRecord(p, q)
    && page in q.annotations
    && (forall k :: k != page ==> (k in q.annotations <==> k in p.annotations))
    && (forall k :: k != page && k in p.annotations ==> q.annotations[k] == p.annotations[k])
  }

  /** handleAnnotationChange's update: page `page` gets list `anns`. */
  function SetPage(p: ProjectData, page: int, anns: seq<Annotation>): (q: ProjectData)
    ensures SameExceptPage(p, q, page) && q.annotations[page] == anns
  {
    p.(annotations := p.annotations[page := anns])
  }

  /** The page list with every annotation of id `id` filtered out. */
  function RemoveId(anns: seq<Annotation>, id: string): (r: seq<Annotation>)
    ensures |r| <= |anns|
    ensures forall i :: 0 <= i < |r| ==> r[i].id != id
  {
    if anns == [] then []
    else
      var last := anns[|anns| - 1];
      assert anns == anns[..|anns| - 1] + [last];
      RemoveId(anns[..|anns| - 1], id) + (if last.id == id then [] else [last])
  }

  /** An annotation survives the filter exactly when it was there and has another id. */
  lemma {:induction false} RemoveIdMembers(anns: seq<Annotation>, id: string, a: Annotation)
    ensures a in RemoveId(anns, id) <==> a in anns && a.id != id
  {
    if anns != [] {
      var init := anns[..|anns| - 1];
      assert anns == init + [anns[|anns| - 1]];
      RemoveIdMembers(init, id, a);
    }
  }

  /** Filtering a list extended by one annotation. */
  lemma RemoveIdSnoc(s: seq<Annotation>, a: Annotation, id: string)
    ensures RemoveId(s + [a], id) == RemoveId(s, id) + (if a.id == id then [] else [a])
  {
  }

  /** Filtering keeps order: it distributes over concatenation. */
  lemma {:induction false} RemoveIdConcat(s: seq<Annotation>, t: seq<Annotation>, id: string)
    ensures RemoveId(s + t, id) == RemoveId(s, id) + RemoveId(t, id)
  {
    if t == [] {
      assert s + t == s;
    } else {
      var init, last := t[..|t| - 1], t[|t| - 1];
      assert t == init + [last];
      assert s + t == (s + init) + [last];
      RemoveIdSnoc(s + init, last, id);
      RemoveIdSnoc(init, last, id);
      RemoveIdConcat(s, init, id);
    }
  }

  /** Removing an id that is not on the page leaves the list as it was. */
  lemma {:induction false} RemoveIdAbsent(anns: seq<Annotation>, id: string)
    requires forall a :: a in anns ==> a.id != id
    ensures RemoveId(anns, id) == anns
  {
    if anns != [] {
      var init := anns[..|anns| - 1];
      assert forall a :: a in init ==> a in anns;
      RemoveIdAbsent(init, id);
    }
  }

  /** handleRemoveAnnotation's update; a page without a key counts as empty. */
  function RemoveFromPage(p: ProjectData, page: int, id: string): (q: ProjectData)
    ensures SameExceptPage(p, q, page)
    ensures q.annotations[page] == RemoveId(PdfViewer.PageAnnotations(p.annotations, page), id)
  {
    SetPage(p, page, RemoveId(PdfViewer.PageAnnotations(p.annotations, page), id))
  }

  /** The page component's add callback followed by handleAnnotationChange:
      the page's list (empty if it has no key) with `a` appended. */
  function AppendToPage(p: ProjectData, page: int, a: Annotation): (q: ProjectData)
    ensures SameExceptPage(p, q, page)
    ensures var before := PdfViewer.PageAnnotations(p.annotations, page);
            |q.annotations[page]| == |before| + 1
            && q.annotations[page][..|before|] == before
            && q.annotations[page][|before|] == a
  {
    SetPage(p, page, PdfViewer.OnAddAnnotation(p.annotations, page, a))
  }

  /** handleClearPageConfirm's update: every page emptied, the record kept. */
  function ClearAll(p: ProjectData): (q: ProjectData)
    ensures SameRecord(p, q)
    ensures forall page :: PdfViewer.PageAnnotations(q.annotations, page) == []
  {
    p.(annotations := map[])
  }

  // ---------------------------------------------------------------------
  // Composition of the eraser's removal callbacks
  // ---------------------------------------------------------------------

  /** The page list without the annotations whose id is in `ids`. */
  function WithoutIds(anns: seq<Annotation>, ids: set<string>): (r: seq<Annotation>)
    ensures forall a :: a in r <==> a in anns && a.id !in ids
  {
    if anns == [] then []
    else
      var last := anns[|anns| - 1];
      assert anns == anns[..|anns| - 1] + [last];
      WithoutIds(anns[..|anns| - 1], ids) + (if last.id in ids then [] else [last])
  }

  function IdSet(ids: seq<string>): set<string>
  {
    set x | x in ids
  }

  /** The project after handleRemoveAnnotation(page, id) for each id in order. */
  function RemoveEach(p: ProjectData, page: int, ids: seq<string>): ProjectData
  {
    if ids == [] then p
    else RemoveFromPage(RemoveEach(p, page, ids[..|ids| - 1]), page, ids[|ids| - 1])
  }

  lemma {:induction false} WithoutNoIds(anns: seq<Annotation>)
    ensures WithoutIds(anns, {}) == anns
  {
    if anns != [] {
      WithoutNoIds(anns[..|anns| - 1]);
    }
  }

  /** One more removal filters one more id. */
  lemma {:induction false} RemoveIdAfterWithoutIds(anns: seq<Annotation>, ids: set<string>, id: string)
    ensures RemoveId(WithoutIds(anns, ids), id) == WithoutIds(anns, ids + {id})
  {
    if anns != [] {
      var init := anns[..|anns| - 1];
      var last := anns[|anns| - 1];
      RemoveIdAfterWithoutIds(init, ids, id);
      RemoveIdConcat(WithoutIds(init, ids), if last.id in ids then [] else [last], id);
    }
  }

  /** Successive removals by id drop exactly the annotations whose id is among
      them, keep the rest in order, and touch no other page and no other field. */
  lemma {:induction false} RemoveEachFilters(p: ProjectData, page: int, ids: seq<string>)
    ensures var q := RemoveEach(p, page, ids);
            && SameRecord(p, q)
            && (forall k :: k != page ==> (k in q.annotations <==> k in p.annotations))
            && (forall k :: k != page && k in p.annotations ==> q.annotations[k] == p.annotations[k])
            && PdfViewer.PageAnnotations(q.annotations, page)
               == WithoutIds(PdfViewer.PageAnnotations(p.annotations, page), IdSet(ids))
  {
    var anns := PdfViewer.PageAnnotations(p.annotations, page);
    if ids == [] {
      WithoutNoIds(anns);
      assert IdSet(ids) == {};
    } else {
      var init := ids[..|ids| - 1];
      var last := ids[|ids| - 1];
      RemoveEachFilters(p, page, init);
      RemoveIdAfterWithoutIds(anns, IdSet(init), last);
      assert ids == init + [last];
      assert IdSet(ids) == IdSet(init) + {last};
    }
  }

  /** Filtering by an id no annotation carries changes nothing. */
  lemma {:induction false} WithoutForeignId(anns: seq<Annotation>, ids: set<string>, x: string)
    requires forall a :: a in anns ==> a.id != x
    ensures WithoutIds(anns, ids + {x}) == WithoutIds(anns, ids)
  {
    if anns != [] {
      var init := anns[..|anns| - 1];
      assert forall a :: a in init ==> a in anns;
      WithoutForeignId(init, ids, x);
    }
  }

  /** With distinct ids on the page, filtering out the hit ids removes exactly
      the hit strokes. */
  lemma {:induction false} HitIdsRemoveHitStrokes(anns: seq<Annotation>, c: Point)
    requires UniqueIds(anns)
    ensures WithoutIds(anns, IdSet(PdfPage.HitIds(anns, c))) == PdfPage.Unhit(anns, c)
  {
    if anns != [] {
      var init := anns[..|anns| - 1];
      var last := anns[|anns| - 1];
      assert forall j :: 0 <= j < |init| ==> init[j] == anns[j];
      assert UniqueIds(init);
      HitIdsRemoveHitStrokes(init, c);
      var before := IdSet(PdfPage.HitIds(init, c));
      var extra: seq<string> := if PdfPage.StrokeHit(last, c) then [last.id] else [];
      assert PdfPage.HitIds(anns, c) == PdfPage.HitIds(init, c) + extra;
      assert IdSet(PdfPage.HitIds(anns, c)) == before + IdSet(extra);
      assert forall a :: a in init ==> a.id != last.id by {
        forall a | a in init ensures a.id != last.id {
          var j :| 0 <= j < |init| && init[j] == a;
          assert anns[j] == a;
        }
      }
      if PdfPage.StrokeHit(last, c) {
        assert IdSet(extra) == {last.id};
        WithoutForeignId(init, before, last.id);
      } else {
        assert IdSet(extra) == {};
        assert before + IdSet(extra) == before;
        assert last.id !in before by {
          PdfPage.HitIdsAreHitStrokes(init, c, last.id);
        }
      }
    }
  }

  /** One eraser step on page `page` at screen point (x, y), delivered to the
      store: the page loses exactly the strokes within reach, keeps every other
      annotation (every reveal window among them) in order, and nothing else
      in the project changes. */
  lemma EraserStepOnProject(p: ProjectData, page: int, x: real, y: real, scale: real)
    requires scale > 0.0
    requires UniqueIds(PdfViewer.PageAnnotations(p.annotations, page))
    ensures var anns := PdfViewer.PageAnnotations(p.annotations, page);
            var c := PdfPage.ToDocument(Point(x, y), scale);
            var q := RemoveEach(p, page, PdfPage.HitIds(anns, c));
            && SameRecord(p, q)
            && (forall k :: k != page ==> (k in q.annotations <==> k in p.annotations))
            && (forall k :: k != page && k in p.annotations ==> q.annotations[k] == p.annotations[k])
            && PdfViewer.PageAnnotations(q.annotations, page) == PdfPage.Unhit(anns, c)
  {
    var anns := PdfViewer.PageAnnotations(p.annotations, page);
    var c := PdfPage.ToDocument(Point(x, y), scale);
    RemoveEachFilters(p, page, PdfPage.HitIds(anns, c));
    HitIdsRemoveHitStrokes(anns, c);
  }

  // ---------------------------------------------------------------------
  // The root component's state
  // ---------------------------------------------------------------------

  class AppState {
    const store: Storage.KeyValueStore
    var project: Option<ProjectData>
    var isLoading: bool
    var currentTool: ToolType
    var toolSettings: ToolSettings
    var scale: real
    var isResetDialogOpen: bool

    /** The zoom stays within the toolbar's range, so every page sees scale > 0. */
    ghost predicate Valid()
      reads this
    {
      Toolbar.MIN_SCALE <= scale <= Toolbar.MAX_SCALE
    }

    constructor (store: Storage.KeyValueStore)
      ensures Valid() && this.store == store
      ensures project == None && isLoading && !isResetDialogOpen
      ensures currentTool == DEFAULT_TOOL && toolSettings == DEFAULT_SETTINGS && scale == DEFAULT_SCALE
    {
      this.store := store;
      project := None;
      isLoading := true;
      currentTool := DEFAULT_TOOL;
      toolSettings := DEFAULT_SETTINGS;
      scale := DEFAULT_SCALE;
      isResetDialogOpen := false;
    }

    function CurrentScreen(): Screen
      reads this
    {
      ScreenFor(isLoading, project)
    }

    /** The start-up load: resume a stored, unexpired record if there is one. */
    method Init(now: int, readFails: bool, deleteFails: bool) returns (saved: Option<ProjectData>)
      modifies this`project, this`isLoading, store
      ensures saved == Storage.LoadResult(old(store.entries), now, readFails)
      ensures store.entries == Storage.AfterLoad(old(store.entries), now, readFails, deleteFails)
      ensures project == (if saved.Some? then saved else old(project))
      ensures !isLoading
    {
      saved := Storage.LoadProject(store, now, readFails, deleteFails);
      if saved.Some? {
        project := saved;
      }
      isLoading := false;
    }

    /** handleUpload: create the project and save it at once. A failing save
        propagates out before the loading flag is cleared. */
    method HandleUpload(normal: UploadedFile, correction: UploadedFile,
                        projectId: string, normalId: string, correctionId: string,
                        now: int, writeFails: bool)
      returns (outcome: Storage.SaveOutcome)
      modifies this`project, this`isLoading, store
      ensures project == Some(NewProject(projectId, normalId, correctionId, now, normal, correction))
      ensures writeFails ==>
                outcome == Storage.SaveError(Storage.SAVE_ERROR) && store.entries == old(store.entries)
      ensures !writeFails ==>
                outcome == Storage.Saved
                && store.entries == old(store.entries)[Storage.STORAGE_KEY := project.value]
      ensures isLoading == writeFails
      ensures CurrentScreen() == (if writeFails then LoadingScreen else WorkspaceScreen)
    {
      isLoading := true;
      var created := NewProject(projectId, normalId, correctionId, now, normal, correction);
      project := Some(created);
      outcome := Storage.SaveProject(store, created, writeFails);
      if outcome.Saved? {
        isLoading := false;
      }
    }

    /** The body of the debounced save, run when its timer fires. */
    method PersistNow(writeFails: bool) returns (outcome: Option<Storage.SaveOutcome>)
      modifies store
      ensures project.None? ==> outcome == None && store.entries == old(store.entries)
      ensures project.Some? && writeFails ==>
                outcome == Some(Storage.SaveError(Storage.SAVE_ERROR)) && store.entries == old(store.entries)
      ensures project.Some? && !writeFails ==>
                outcome == Some(Storage.Saved)
                && store.entries == old(store.entries)[Storage.STORAGE_KEY := project.value]
    {
      outcome := None;
      if project.Some? {
        var r := Storage.SaveProject(store, project.value, writeFails);
        outcome := Some(r);
      }
    }

    /** handleAnnotationChange: replace page `page`'s list; no-op without a project. */
    method HandleAnnotationChange(page: int, anns: seq<Annotation>)
      modifies this`project
      ensures project == (if old(project).Some? then Some(SetPage(old(project).value, page, anns)) else None)
    {
      if project.Some? {
        project := Some(SetPage(project.value, page, anns));
      }
    }

    /** A page's add callback, routed through handleAnnotationChange. */
    method AddAnnotation(page: int, a: Annotation)
      modifies this`project
      ensures project == (if old(project).Some? then Some(AppendToPage(old(project).value, page, a)) else None)
    {
      if project.Some? {
        HandleAnnotationChange(page, PdfViewer.OnAddAnnotation(project.value.annotations, page, a));
      }
    }

    /** handleRemoveAnnotation: drop id `id` from page `page`; no-op without a project. */
    method HandleRemoveAnnotation(page: int, id: string)
      modifies this`project
      ensures project == (if old(project).Some? then Some(RemoveFromPage(old(project).value, page, id)) else None)
    {
      if project.Some? {
        project := Some(RemoveFromPage(project.value, page, id));
      }
    }

    /** The removal callbacks of one eraser step on page `page`, in order. */
    method ApplyRemovals(page: int, ids: seq<string>)
      modifies this`project
      ensures project == (if old(project).Some? then Some(RemoveEach(old(project).value, page, ids)) else None)
    {
      var i := 0;
      while i < |ids|
        invariant 0 <= i <= |ids|
        invariant project == (if old(project).Some? then Some(RemoveEach(old(project).value, page, ids[..i])) else None)
      {
        assert ids[..i + 1][..i] == ids[..i];
        HandleRemoveAnnotation(page, ids[i]);
        i := i + 1;
      }
      assert ids[..i] == ids;
    }

    /** The Reset button opens the confirmation dialog. */
    method HandleClearPageRequest()
      modifies this`isResetDialogOpen
      ensures isResetDialogOpen
    {
      isResetDialogOpen := true;
    }

    /** Confirming the dialog: handleClearPageConfirm, then the dialog closes. */
    method ConfirmReset()
      modifies this`project, this`isResetDialogOpen
      ensures project == (if old(project).Some? then Some(ClearAll(old(project).value)) else None)
      ensures !isResetDialogOpen
    {
      if project.Some? {
        project := Some(ClearAll(project.value));
      }
      isResetDialogOpen := false;
    }

    /** Cancelling the dialog. */
    method CancelReset()
      modifies this`isResetDialogOpen
      ensures !isResetDialogOpen
    {
      isResetDialogOpen := false;
    }

    /** A tool button of the toolbar. */
    method PressToolButton(b: Toolbar.ToolButton)
      modifies this`currentTool, this`toolSettings
      ensures Toolbar.Selection(currentTool, toolSettings) == Toolbar.Press(b, old(toolSettings))
    {
      var s := Toolbar.Press(b, toolSettings);
      currentTool := s.tool;
      toolSettings := s.settings;
    }

    /** A colour swatch, inline or in the dropdown (which stays open across tool changes). */
    method PickColor(c: string)
      requires c in Toolbar.COLORS
      modifies this`toolSettings
      ensures toolSettings == Toolbar.WithColor(old(toolSettings), c)
    {
      toolSettings := Toolbar.WithColor(toolSettings, c);
    }

    /** A width button, inline or in the dropdown. */
    method PickWidth(w: real)
      requires w in Toolbar.WIDTHS
      modifies this`toolSettings
      ensures toolSettings == Toolbar.WithWidth(old(toolSettings), w)
    {
      toolSettings := Toolbar.WithWidth(toolSettings, w);
    }

    method ZoomIn()
      requires Valid()
      modifies this`scale
      ensures Valid() && scale == Toolbar.ZoomIn(old(scale))
    {
      scale := Toolbar.ZoomIn(scale);
    }

    method ZoomOut()
      requires Valid()
      modifies this`scale
      ensures Valid() && scale == Toolbar.ZoomOut(old(scale))
    {
      scale := Toolbar.ZoomOut(scale);
    }
  }

  // ---------------------------------------------------------------------
  // A whole session
  // ---------------------------------------------------------------------

  /** A pen gesture down at p1, through p2, up at p3 on a fresh page commits one
      stroke through the three points, in document space, in the current style. */
  method DrawStroke(tool: ToolType, settings: ToolSettings, scale: real, anns: seq<Annotation>,
                    p1: Point, p2: Point, p3: Point, strokeId: string)
    returns (stroke: Annotation)
    requires IsPen(tool) && scale > 0.0
    ensures stroke.Path? && stroke.id == strokeId && |stroke.points| == 3
    ensures PdfPage.ToScreen(stroke.points[0], scale) == p1
    ensures PdfPage.ToScreen(stroke.points[1], scale) == p2
    ensures PdfPage.ToScreen(stroke.points[2], scale) == p3
    ensures stroke.color == settings.color && stroke.width == settings.width
    ensures stroke.opacity == settings.opacity
  {
    var gesture := new PdfPage.PageGesture();
    var removed := gesture.MouseDown(tool, p1, scale, anns);
    removed := gesture.MouseMove(tool, p2, scale, anns);
    removed := gesture.MouseMove(tool, p3, scale, anns);
    assert gesture.currentPath == [p1, p2, p3];
    var added := gesture.MouseUp(tool, settings, scale, strokeId);
    stroke := added.value;
  }

  /** Upload two PDFs, draw a three-point pen stroke on page 1, let the save
      fire, then reopen the app within the retention window: page 1 holds
      exactly that stroke, in document space, with the pen's style. */
  method DrawStrokeAndReload(normal: UploadedFile, correction: UploadedFile,
                             projectId: string, normalId: string, correctionId: string,
                             strokeId: string, created: int, reopened: int,
                             p1: Point, p2: Point, p3: Point)
    returns (page1: seq<Annotation>)
    requires normal.mimeType == FileUpload.PDF_MIME && correction.mimeType == FileUpload.PDF_MIME
    requires !Storage.Expired(reopened, created)
    ensures |page1| == 1 && page1[0].Path? && page1[0].id == strokeId
    ensures |page1[0].points| == 3
    ensures PdfPage.ToScreen(page1[0].points[0], DEFAULT_SCALE) == p1
    ensures PdfPage.ToScreen(page1[0].points[1], DEFAULT_SCALE) == p2
    ensures PdfPage.ToScreen(page1[0].points[2], DEFAULT_SCALE) == p3
    ensures page1[0].color == Toolbar.PEN_PRESET.color
    ensures page1[0].width == Toolbar.PEN_PRESET.width
    ensures page1[0].opacity == Toolbar.PEN_PRESET.opacity
  {
    var form := new FileUpload.UploadForm();
    form.HandleFileChange(NormalRole, [normal]);
    form.HandleFileChange(CorrectionRole, [correction]);
    var files := form.HandleSubmit();
    assert files == Some((normal, correction));

    var store := new Storage.KeyValueStore();
    var app := new AppState(store);
    var none := app.Init(created, false, false);
    var outcome := app.HandleUpload(normal, correction, projectId, normalId, correctionId,
                                    created, false);
    app.PressToolButton(Toolbar.PenButton);
    assert app.currentTool == Draw && app.toolSettings == Toolbar.PEN_PRESET;
    assert app.scale == DEFAULT_SCALE;

    var anns := PdfViewer.PageAnnotations(app.project.value.annotations, 1);
    var stroke := DrawStroke(app.currentTool, app.toolSettings, app.scale, anns, p1, p2, p3, strokeId);
    app.AddAnnotation(1, stroke);
    ghost var record := app.project.value;
    assert record.timestamp == created;
    assert PdfViewer.PageAnnotations(record.annotations, 1) == [stroke];
    var saved := app.PersistNow(false);
    assert store.entries == map[Storage.STORAGE_KEY := record];

    var reopenedApp := new AppState(store);
    var loaded := reopenedApp.Init(reopened, false, false);
    assert loaded == Some(record);
    page1 := PdfViewer.PageAnnotations(reopenedApp.project.value.annotations, 1);
  }
}
