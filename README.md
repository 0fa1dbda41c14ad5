# PDF correction workspace — Dafny model

The application lets a user upload two PDF files. The *normal* document is the one being worked on. The *correction* document is the answer key.

On each page of the normal document the user can:

- draw freehand pen or highlighter strokes;
- erase strokes;
- drag out rectangular "reveal windows" that show the correction document's pixels at that place.

Annotations are stored per page in document space, meaning screen coordinates divided by the zoom. The project record (ids, timestamp, both files and the annotation map) is kept in a local key-value store and expires after 24 hours.

Each source file has its own module:

| file | module | form |
|---|---|---|
| `types.ts` | `Types` | datatypes |
| `components/PDFPage.tsx` | `PdfPage` | see below |
| `components/PDFViewer.tsx` | `PdfViewer` | see below |
| `utils/storage.ts` | `Storage` | see below |
| `components/Toolbar.tsx` | `Toolbar` | see below |
| `components/FileUpload.tsx` | `FileUpload` | see below |
| `App.tsx` | `App` | see below |

What each module contains:

- **`PdfPage`**:
  - the gesture engine is a class, `PageGesture`, whose fields are `isDrawing`, `currentPath`, `selectionStart` and `currentRect`;
  - the mouse handlers are methods of that class;
  - `checkEraserCollision` is a method that loops over the annotations and, for each stroke, over its points, stopping at the first hit;
  - the commit rules, rectangle normalisation and coordinate mapping are functions.
- **`PdfViewer`**:
  - the page fan-out and the per-page append are functions;
  - the load state (`numPages`, `correctionDoc`, `error`) is a class.
- **`Storage`**: the key-value store is a class holding a map. The `save`, `load` and `clear` operations are methods. Each states the new map outright. `load` is also proved against the specification functions `LoadResult` and `AfterLoad`.
- **`Toolbar`**:
  - presets, setting updates and zoom clamps are functions;
  - the dropdown toggle is a class.
- **`FileUpload`**: the two file slots and the error message are a class.
- **`App`**:
  - the project updaters (set page, remove by id, append, reset, new record) are pure functions;
  - the root component's state is the class `AppState`, whose handlers replace the `project` field.

Callbacks become results:

- The page's `onAddAnnotation` callback is the `Option<Annotation>` that `MouseUp` returns.
- The page's `onRemoveAnnotation` calls are the sequence of ids that `MouseDown` and `MouseMove` return, in call order.
- `AppState.AddAnnotation` and `AppState.ApplyRemovals` deliver these to the store exactly as the viewer's wiring does.

The following values become parameters: ids from `uuid`, the clock `Date.now()`, mouse coordinates already converted to page-relative screen pixels, and storage failures: a failing `set` (`writeFails`), `get` (`readFails`) or `del` (`deleteFails`).

The eraser's distance test `sqrt(dx² + dy²) < width/2 + 10` is written as `0 < reach && dx² + dy² < reach²`. The two are equivalent because a square root is never negative.

Two behaviours of the code are modelled as written:

- **Removing an id from a page that has no key** writes an empty list under that key (`App.tsx:95-100`), so the call is not a pure no-op. The page's visible list is unchanged either way (`App.RemoveIdAbsent`).
- **`handleUpload` does not catch the save error** (`App.tsx:73-74`). A failing save rejects before `setIsLoading(false)` is reached, so the app stays on the loading screen. `App.AppState.HandleUpload` models this as `isLoading == writeFails`.

## Model

| member | source | states |
|---|---|---|
| PdfPage.ToDocument | components/PDFPage.tsx:173-174 | The document point times the zoom gives back the screen point. |
| PdfPage.ToScreen | components/PDFPage.tsx:117-119 | The painter's placement of a stored vertex is the inverse of the commit-time division by the zoom. |
| PdfPage.RescaledRendering | components/PDFPage.tsx:117-119 | After a zoom change from s1 to s2, every painted vertex moves by the factor s2/s1; the stored geometry is untouched. |
| PdfPage.ScalePoints | components/PDFPage.tsx:248 | The committed path has one point per captured point, and each maps back to its screen point. |
| PdfPage.CorrectionRenderScale | components/PDFPage.tsx:53 | The correction raster's zoom is at least 2 × 1.5 and at least 2 × scale, and equals one of the two. |
| PdfPage.CorrectionRasterAtLeastThree | components/PDFPage.tsx:53 | The correction raster is never requested below zoom 3. |
| PdfPage.DragRect | components/PDFPage.tsx:229-236 | The selection has non-negative size. Its origin is the component-wise minimum of anchor and pointer, and its far corner is the maximum. |
| PdfPage.DragDirectionIrrelevant | components/PDFPage.tsx:229-236 | Dragging between two corners in either direction selects the same rectangle. |
| PdfPage.Commit | components/PDFPage.tsx:244-268 | A stroke is committed iff the tool is Draw or Highlight and the path has more than one point. It carries the settings' colour, width (unscaled) and opacity, and every point divided by the zoom. A reveal window is committed iff the tool is reveal-select and the rectangle is strictly wider and taller than 5. Its x, y, w and h times the zoom give the screen rectangle. The eraser and every other case commit nothing. |
| PdfPage.HitIdsAreHitStrokes | components/PDFPage.tsx:177-196 | An id is requested for removal exactly when some annotation carrying it is a stroke with a vertex closer than width/2 + 10 to the eraser point. |
| PdfPage.Unhit | components/PDFPage.tsx:177-196 | An annotation survives an eraser step exactly when it was there and is not a hit stroke. |
| PdfPage.UnhitKeepsCorrections | components/PDFPage.tsx:178-179 | The eraser never removes a reveal window. |
| PdfPage.PathHitAt | components/PDFPage.tsx:181-190 | The vertex scan, which stops at the first hit, reports a hit iff some vertex is within reach. |
| PdfPage.CheckEraserCollision | components/PDFPage.tsx:171-197 | The loop issues removals for exactly the hit strokes' ids, in annotation order, testing against the pointer divided by the zoom. |
| PdfPage.PageGesture.constructor | components/PDFPage.tsx:31-34 | A page starts idle, with no path, no anchor and no rectangle. |
| PdfPage.PageGesture.MouseDown | components/PDFPage.tsx:199-218 | With no tool, nothing changes. The eraser starts a gesture and removes the hit strokes. A pen starts a path holding exactly the down point. Reveal-select anchors a zero-size rectangle at the down point. The gesture invariant is kept. |
| PdfPage.PageGesture.MouseMove | components/PDFPage.tsx:220-238 | Without an active gesture, nothing changes. The eraser removes hit strokes and changes no field. A pen appends exactly the new point. Reveal-select sets the rectangle normalised from the anchor. Every other field is unchanged. |
| PdfPage.PageGesture.MouseUp | components/PDFPage.tsx:240-273 | Without an active gesture, nothing changes. Otherwise it hands `Commit` of the held path or rectangle to the add callback, then resets to idle with an empty path, no anchor and no rectangle. |
| PdfViewer.Pages | components/PDFViewer.tsx:85-100 | There is one page per index, numbered index + 1, increasing within 1..numPages. Each page gets its stored list, or the empty list when it has no key. Every page gets the same correction-document handle. |
| PdfViewer.OnAddAnnotation | components/PDFViewer.tsx:95-98 | A page's add callback hands up a list that ends with the new annotation, preceded by the page's stored list. For a page with no key it is exactly the new annotation. |
| PdfViewer.NoPagesBeforeLoad | components/PDFViewer.tsx:31 | Before the document loads (numPages = 0), no page is produced. |
| PdfViewer.Viewer.constructor | components/PDFViewer.tsx:31-33 | The viewer starts with no pages, no correction document and no error. |
| PdfViewer.Viewer.RenderedPages | components/PDFViewer.tsx:51-103 | A load error replaces all pages. Otherwise the rendered pages are exactly `Pages` of the page count, the annotations and the viewer's correction handle. |
| PdfViewer.Viewer.OnDocumentLoadSuccess | components/PDFViewer.tsx:35-38 | Loading sets the page count, clears the error and keeps the correction handle. |
| PdfViewer.Viewer.OnDocumentLoadError | components/PDFViewer.tsx:40-43 | A load error records the message and changes nothing else. |
| PdfViewer.Viewer.OnCorrectionDocumentLoadSuccess | components/PDFViewer.tsx:47-100 | The loaded correction document is stored, and every rendered page, for any annotation map, is handed that handle. The page count and error are kept. |
| Storage.ExpiryBoundary | utils/storage.ts:5-22 | The window is 86 400 000 ms. A record exactly that old is kept (the comparison is strict); one a millisecond older is expired. |
| Storage.KeyValueStore.constructor | utils/storage.ts:1 | The store starts empty. |
| Storage.SaveProject | utils/storage.ts:7-14 | A save writes the record under the fixed key. A failing write reports "Storage quota exceeded or error." and leaves the store as it was. |
| Storage.LoadResult | utils/storage.ts:16-32 | The load yields a record iff the read succeeds, the key is present and the record is not expired; the record is then the stored one. |
| Storage.AfterLoad | utils/storage.ts:16-32 | The load deletes the key exactly when the read succeeds and the stored record is expired, unless the delete itself fails (that failure is caught at lines 28-31). No other key changes. |
| Storage.SavedRecordLoads | utils/storage.ts:7-27 | A record saved and loaded within the window comes back unchanged, and the store is not modified. |
| Storage.ExpiredStaysUnloadable | utils/storage.ts:22-25 | Once a record has expired, no later load returns it, whether or not the delete that followed succeeded. |
| Storage.ClearedStoreLoadsNothing | utils/storage.ts:34-36 | After a clear, nothing loads. |
| Storage.LoadProject | utils/storage.ts:16-32 | The load method returns `LoadResult` and leaves the store as `AfterLoad`, including the failing-delete path. |
| Storage.ClearProject | utils/storage.ts:34-36 | The clear deletes the fixed key and nothing else. A failing delete is not caught: it is reported to the caller, and the store is unchanged. |
| Storage.SaveLoadClear | utils/storage.ts:7-36 | Saving and then loading within the window gives the record; loading after a clear gives nothing. |
| Toolbar.Press | components/Toolbar.tsx:69-104 | A button selects its tool. Highlight and Pen apply their presets (#eab308/20/0.4 and #ef4444/2/1). Move, Reveal Key and Eraser leave the settings alone. |
| Toolbar.WithColor | components/Toolbar.tsx:117 | The colour picker changes only the colour. |
| Toolbar.WithWidth | components/Toolbar.tsx:131 | The width picker changes only the width. |
| Toolbar.ZoomOut | components/Toolbar.tsx:173 | Zoom-out gives max(0.5, scale − 0.1), so the result is never below 0.5. |
| Toolbar.ZoomIn | components/Toolbar.tsx:183 | Zoom-in gives min(3, scale + 0.1), so the result is never above 3. |
| Toolbar.ZoomStaysInRange | components/Toolbar.tsx:173-185 | Both zoom buttons keep a scale in [0.5, 3] inside that range. |
| Toolbar.PickersFollowButton | components/Toolbar.tsx:69-109 | The inline colour and width pickers are shown after Highlight or Pen and hidden after Move, Reveal Key or Eraser. |
| Toolbar.DropdownMenu.constructor | components/Toolbar.tsx:26 | No dropdown is open at first. |
| Toolbar.DropdownMenu.Trigger | components/Toolbar.tsx:52-62 | The trigger of the open menu closes it; any other trigger opens its own menu. |
| Toolbar.DropdownMenu.Dismiss | components/Toolbar.tsx:42-50 | Resize, scroll, the backdrop and a pick all close the menu. |
| FileUpload.SubmitEnabled | components/FileUpload.tsx:97-99 | The submit button is disabled when either slot is empty and enabled when both hold a file. |
| FileUpload.UploadForm.constructor | components/FileUpload.tsx:9-11 | Both slots start empty, with no error. |
| FileUpload.UploadForm.HandleFileChange | components/FileUpload.tsx:13-24 | An empty selection changes nothing. A non-PDF sets "Please upload PDF files only." and keeps both slots. A PDF clears the error and fills only the targeted slot. |
| FileUpload.UploadForm.HandleSubmit | components/FileUpload.tsx:26-32 | With both slots filled, it uploads (normal, correction) in that order and changes nothing. Otherwise it sets "Both files are required." and uploads nothing. |
| App.PenPresetIsDefault | App.tsx:10-14 | The start-up style is the Pen preset {#ef4444, 2, 1}. |
| App.ScreenFor | App.tsx:114-124 | The loading screen shows iff loading. The workspace shows iff not loading and a project with both files exists. Otherwise the upload screen shows. |
| App.NewProject | App.tsx:50-68 | A new record has the given id and time and empty annotations. Its normal-role and correction-role files carry their ids, the uploaded names and the uploaded files. It opens the workspace. |
| App.SetPage | App.tsx:77-89 | Only page p's list is replaced. Every other page, the id, the timestamp and both files are unchanged. |
| App.RemoveId | App.tsx:100 | The filtered list is no longer than the original and holds no annotation with the removed id. |
| App.RemoveIdMembers | App.tsx:100 | An annotation survives the filter iff it was there and has a different id. |
| App.RemoveIdConcat | App.tsx:100 | The filter distributes over concatenation, so the kept annotations stay in their order. |
| App.RemoveIdAbsent | App.tsx:95-100 | Removing an id that no annotation has leaves the list unchanged. |
| App.RemoveFromPage | App.tsx:91-104 | Page p becomes its list (empty if it has no key) without the id. Nothing else changes. |
| App.AppendToPage | components/PDFViewer.tsx:95-98 | Page p becomes its current list (empty if it has no key) followed by exactly the new annotation. Nothing else changes. |
| App.ClearAll | App.tsx:110-112 | Reset empties every page and keeps the id, the timestamp and both file references. |
| App.WithoutIds | App.tsx:100 | Filtering by a set of ids keeps exactly the annotations whose id is outside the set. |
| App.RemoveEachFilters | components/PDFViewer.tsx:99 | Successive removals on page p drop exactly the annotations whose id is among the removed ids. The rest stay in order, and other pages and fields are unchanged. |
| App.HitIdsRemoveHitStrokes | components/PDFPage.tsx:177-196 | With distinct ids on the page, removing the hit ids leaves exactly the unhit annotations, in order. |
| App.EraserStepOnProject | components/PDFPage.tsx:171-197 | An eraser step at screen point (x, y), delivered to the store, leaves page p as exactly its unhit annotations. Every reveal window is among them. Nothing else changes. |
| App.AppState.constructor | App.tsx:17-23 | The app starts loading, with no project, the dialog closed, tool NONE, settings {#ef4444, 2, 1} and zoom 1.2. |
| App.AppState.Init | App.tsx:26-35 | The start-up load installs a stored, unexpired record if there is one, and ends the loading state. |
| App.AppState.HandleUpload | App.tsx:50-124 | The new record becomes the project and is saved at once. A successful save ends loading and shows the workspace. A failing save leaves the loading screen up. |
| App.AppState.PersistNow | App.tsx:39-45 | The debounced save writes the current project under the fixed key. Without a project it does nothing. |
| App.AppState.HandleAnnotationChange | App.tsx:77-89 | The page's list is replaced. It is a no-op without a project. |
| App.AppState.AddAnnotation | components/PDFViewer.tsx:95-98 | The page's add callback appends through `handleAnnotationChange`. It is a no-op without a project. |
| App.AppState.HandleRemoveAnnotation | App.tsx:91-104 | The id is filtered from the page. It is a no-op without a project. |
| App.AppState.ApplyRemovals | components/PDFViewer.tsx:99 | The page's removal callbacks, applied in order, give `RemoveEach` of the project. |
| App.AppState.HandleClearPageRequest | App.tsx:106-108 | The Reset button opens the confirmation dialog. |
| App.AppState.ConfirmReset | App.tsx:110-158 | Confirming empties all annotations and closes the dialog. |
| App.AppState.CancelReset | App.tsx:152-158 | Cancelling closes the dialog and keeps the annotations. |
| App.AppState.PressToolButton | components/Toolbar.tsx:69-104 | The tool and settings become `Toolbar.Press` of the button. |
| App.AppState.PickColor | components/Toolbar.tsx:117-218 | A colour pick, from the inline swatches or the dropdown, under any tool, changes only the colour. |
| App.AppState.PickWidth | components/Toolbar.tsx:131-231 | A width pick, from the inline buttons or the dropdown, under any tool, changes only the width. |
| App.AppState.ZoomIn | components/Toolbar.tsx:183 | The zoom steps up within [0.5, 3]. |
| App.AppState.ZoomOut | components/Toolbar.tsx:173 | The zoom steps down within [0.5, 3]. |
| App.DrawStroke | components/PDFPage.tsx:199-273 | A pen gesture down at p1, through p2, up at p3 commits one stroke. It has the given id, exactly three points mapping back to p1, p2, p3, and the current style. |
| App.DrawStrokeAndReload | App.tsx:26-75 | The full flow runs: upload, Pen, a three-point stroke on page 1, the save firing, and reopening within 24 hours. Page 1 then holds exactly that stroke, in document space, in the Pen style. |

## Left out

- Canvas painting (`components/PDFPage.tsx:90-157`): raster output, composite operations and dashes. Only the vertex mapping is modelled, as `PdfPage.ToScreen`.
- The magic-lens DOM compositing (`components/PDFPage.tsx:307-354`), the cursor choice and the `onPageLoadSuccess` canvas sizing. These are presentation only.
- The asynchronous correction-raster lifecycle (`components/PDFPage.tsx:44-87`): `getPage`/`render`, `toBlob`, creating and revoking Blob URLs, and cancellation. This is foreign, asynchronous code. Only its zoom factor is modelled, as `PdfPage.CorrectionRenderScale`.
- `getCoordinates` (`components/PDFPage.tsx:159-169`), which does DOM bounding-rectangle arithmetic. The handlers take page-relative screen points instead.
- The debounce timer (`App.tsx:38-48`), which is timing and cancellation. Its callback body is modelled as `App.AppState.PersistNow`. The `isSaving` indicator around it is left out.
- `idb-keyval` internals, react-pdf `Document`/`Page`, the pdf.js worker, `uuid` and `Date.now()`. These are external. Ids, times and storage failures are parameters.
- The rendering of the confirmation dialog, dropdown pixel positioning, the zoom percentage label and the disabled state of the zoom buttons. The zoom buttons' clamps make their disabled state irrelevant to the value.
- The correction document's load error (`components/PDFViewer.tsx:68`), which is only logged.
- IEEE-754 arithmetic: coordinates, widths and zoom are reals, so the rounding of 0.1 zoom steps is not modelled.
- App.EraserStepOnProject: assumes that the ids on the page are distinct. Removal is by id (`App.tsx:100`), so a reveal window sharing an id with a hit stroke would also go. `App.RemoveEachFilters` states the general case without this assumption.
- App.DrawStrokeAndReload: a single scenario with successful I/O. The failure paths are stated by the members it calls.
