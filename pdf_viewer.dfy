/** The document session: page count and load errors of the primary document,
    the shared correction-document handle, and the fan-out of one page engine
    per page with that page's annotation list. */
module PdfViewer {
  import opened Types

  /** The loaded reference document, shared read-only by every page. */
  datatype CorrectionDoc = CorrectionDoc(numPages: nat)

  /** What each page engine is given: its 1-based number, its annotations and
      the shared correction-document handle (None until that document loads). */
  datatype PageProps = PageProps(pageNumber: int, annotations: seq<Annotation>,
                                 correctionDoc: Option<CorrectionDoc>)

  /** A page's stored list, or the empty list when the page has no key yet. */
  function PageAnnotations(anns: map<int, seq<Annotation>>, page: int): seq<Annotation>
  {
    if page in anns then anns[page] else []
  }

  /** One page engine per page of the primary document, numbered from 1,
      each given the same correction-document handle. */
  function Pages(numPages: nat, anns: map<int, seq<Annotation>>, doc: Option<CorrectionDoc>)
    : (r: seq<PageProps>)
    ensures |r| == numPages
    ensures forall i :: 0 <= i < |r| ==> r[i].pageNumber == i + 1
    ensures forall i, j :: 0 <= i < j < |r| ==> r[i].pageNumber < r[j].pageNumber
    ensures forall i :: 0 <= i < |r| ==>
              && 1 <= r[i].pageNumber <= numPages
              && (r[i].pageNumber in anns ==> r[i].annotations == anns[r[i].pageNumber])
              && (r[i].pageNumber !in anns ==> r[i].annotations == [])
              && r[i].correctionDoc == doc
  {
    seq(numPages, index requires 0 <= index =>
      PageProps(index + 1, PageAnnotations(anns, index + 1), doc))
  }

  /** The list a page's add callback hands up: the page's current list, then `a`. */
  function OnAddAnnotation(anns: map<int, seq<Annotation>>, page: int, a: Annotation)
    : (r: seq<Annotation>)
    ensures |r| > 0 && r[|r| - 1] == a
    ensures page in anns ==> r[..|r| - 1] == anns[page]
    ensures page !in anns ==> r == [a]
  {
    PageAnnotations(anns, page) + [a]
  }

  /** Load state of the two documents. */
  class Viewer {
    var numPages: nat
    var correctionDoc: Option<CorrectionDoc>
    var error: Option<string>

    constructor ()
      ensures numPages == 0 && correctionDoc == None && error == None
    {
      numPages := 0;
      correctionDoc := None;
      error := None;
    }

    /** The pages rendered: none while a primary-document error is shown. */
    function RenderedPages(anns: map<int, seq<Annotation>>): (r: seq<PageProps>)
      reads this
      ensures error.Some? ==> r == []
      ensures error.None? ==> r == Pages(numPages, anns, correctionDoc)
    {
      if error.Some? then [] else Pages(numPages, anns, correctionDoc)
    }

    /** The primary document loaded: record its page count and clear any error. */
    method OnDocumentLoadSuccess(n: nat)
      modifies this
      ensures numPages == n && error == None && correctionDoc == old(correctionDoc)
    {
      numPages := n;
      error := None;
    }

    /** The primary document failed to load: page rendering is replaced by the message. */
    method OnDocumentLoadError(message: string)
      modifies this
      ensures error == Some(message) && numPages == old(numPages) && correctionDoc == old(correctionDoc)
    {
      error := Some(message);
    }

    /** The correction document loaded: every page now queries this handle. */
    method OnCorrectionDocumentLoadSuccess(doc: CorrectionDoc)
      modifies this
      ensures correctionDoc == Some(doc) && numPages == old(numPages) && error == old(error)
      ensures forall anns, i :: 0 <= i < |RenderedPages(anns)| ==>
                RenderedPages(anns)[i].correctionDoc == Some(doc)
    {
      correctionDoc := Some(doc);
    }
  }

  /** Until the primary document loads, no page is produced. */
  lemma NoPagesBeforeLoad(anns: map<int, seq<Annotation>>, doc: Option<CorrectionDoc>)
    ensures Pages(0, anns, doc) == []
  {
  }
}
