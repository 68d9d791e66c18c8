/**
 * The upload screen (front-end/src/components/WelcomeScreen.tsx): dragging,
 * dropping and picking a file, with the busy guard and the MIME check on
 * dropped files.
 */
module WelcomeScreen {
  import opened Wrappers
  import opened Client
  import Index

  const PdfMime := "application/pdf"
  const DocxMime := "application/vnd.openxmlformats-officedocument.wordprocessingml.document"

  /** The two MIME types a dropped file may declare. */
  predicate AcceptedType(mimeType: string) {
    mimeType == PdfMime || mimeType == DocxMime
  }

  /** What a drop does besides clearing the drag highlight. */
  datatype DropOutcome =
    | Ignored            // an upload is already running
    | Forwarded(file: FileRef)   // handed to `onFileUpload`
    | InvalidType        // the "Invalid file type" error is shown

  /** `handleDrop`'s decision: only the first dropped file counts. */
  function DropDecision(isUploading: bool, files: seq<FileRef>): (o: DropOutcome)
    ensures o.Ignored? <==> isUploading
    ensures o.Forwarded? <==> !isUploading && files != [] && AcceptedType(files[0].mimeType)
    ensures o.Forwarded? ==> o.file == files[0]
    ensures o.InvalidType? <==> !isUploading && (files == [] || !AcceptedType(files[0].mimeType))
  {
    if isUploading then Ignored
    else if files != [] && AcceptedType(files[0].mimeType) then Forwarded(files[0])
    else InvalidType
  }

  /** `handleFileSelect`'s decision: the first picked file, with no MIME check. */
  function SelectDecision(isUploading: bool, files: seq<FileRef>): (forwarded: Option<FileRef>)
    ensures forwarded.Some? <==> !isUploading && files != []
    ensures forwarded.Some? ==> forwarded.value == files[0]
  {
    if isUploading || files == [] then None else Some(files[0])
  }

  /** A picked file reaches the upload even when a drop of the same file would be refused. */
  lemma PickerSkipsMimeCheck(f: FileRef)
    requires !AcceptedType(f.mimeType)
    ensures DropDecision(false, [f]) == InvalidType
    ensures SelectDecision(false, [f]) == Some(f)
  {
  }

  class WelcomeScreenState {
    /** The page: its `handleFileUpload` is `onFileUpload`, its flag is `isUploading`. */
    const page: Index.IndexState
    var isDragging: bool

    constructor (page: Index.IndexState)
      ensures this.page == page && !isDragging
    {
      this.page := page;
      isDragging := false;
    }

    /** `onDragOver`: highlight only when no upload is running. */
    method DragOver()
      modifies this`isDragging
      ensures !page.isUploading ==> isDragging
      ensures page.isUploading ==> isDragging == old(isDragging)
    {
      if !page.isUploading {
        isDragging := true;
      }
    }

    /** `onDragLeave`. */
    method DragLeave()
      modifies this`isDragging
      ensures !isDragging
    {
      isDragging := false;
    }

    /** `handleDrop`: clear the highlight, then start the upload of an accepted first file. */
    method Drop(files: seq<FileRef>) returns (outcome: DropOutcome)
      requires page.Mirrored()
      modifies this`isDragging, page`storage, page`isUploading
      ensures page.Mirrored()
      ensures !isDragging
      ensures outcome == DropDecision(old(page.isUploading), files)
      ensures outcome.Forwarded? ==>
        page.storage == old(page.storage) - {Index.ChatHistoryKey} && page.isUploading
      ensures !outcome.Forwarded? ==>
        page.storage == old(page.storage) && page.isUploading == old(page.isUploading)
    {
      isDragging := false;
      outcome := DropDecision(page.isUploading, files);
      if outcome.Forwarded? {
        page.StartUpload(outcome.file);
      }
    }

    /** `handleFileSelect`: start the upload of the first picked file unless one is running. */
    method FileSelect(files: seq<FileRef>) returns (forwarded: Option<FileRef>)
      requires page.Mirrored()
      modifies page`storage, page`isUploading
      ensures page.Mirrored()
      ensures forwarded == SelectDecision(old(page.isUploading), files)
      ensures forwarded.Some? ==>
        page.storage == old(page.storage) - {Index.ChatHistoryKey} && page.isUploading
      ensures forwarded.None? ==>
        page.storage == old(page.storage) && page.isUploading == old(page.isUploading)
    {
      forwarded := SelectDecision(page.isUploading, files);
      if forwarded.Some? {
        page.StartUpload(forwarded.value);
      }
    }
  }
}
