/** The upload page controller: the state of the `Home` component and the event
    handlers and request callbacks that change it.

    Each handler is a short run of `set…` calls; React applies them in order, so
    the last one written for a field decides its new value, and each handler is
    modelled as a method assigning the fields in that order. The two requests the
    component sends are recorded in ghost outboxes, and every asynchronous
    callback is its own method, fed the result the server gave. */
module UploadPage {
  import opened MimeFilter
  import opened Progress

  datatype Option<T> = None | Some(value: T)

  /** A browser `File`: its name and the MIME type the browser reports for it. */
  datatype FileEntry = FileEntry(name: string, mimeType: string)

  /** The `file` state: never set (undefined), cleared by reset (null), or a file list. */
  datatype FileState = Undefined | Null | Files(items: seq<FileEntry>)
  {
    /** JavaScript truthiness: every file list is truthy, an empty one too. */
    predicate IsTruthy() { Files? }
  }

  /** The file list's first file passes the type test of `onDropFunc`. */
  predicate ImageSelected(f: FileState)
  {
    f.Files? && |f.items| > 0 && IsImageType(f.items[0].mimeType)
  }

  /** The file list's first file fails the type test of `onDropFunc`. */
  predicate WrongType(f: FileState)
  {
    f.Files? && |f.items| > 0 && !IsImageType(f.items[0].mimeType)
  }

  /** The `{type, str}` pair the overlay displays. */
  datatype Status = Status(kind: string, text: string)

  const Blank := Status("", "")
  const Checking := Status("Checking", "Your file is being uploaded to the server. Dont Refresh :)")
  const NotAnImage := Status("Error", "Select only image")
  const NothingDropped := Status("Error", "Select only image to upload")
  const SendingFile := Status("Uploading", "Sending file to server")
  const FileUploaded := Status("Uploaded", "File Uploaded")
  const GeneratingLink := Status("Generating Link", "Creating a link for your image")
  const UploadFailed := Status("Error", "Cannot able to upload")
  const LinkGenerated := Status("Link Generated", "Your link has been successfully generated")
  const LinkFailed := Status("Error", "Cannot able to generate link")
  const NothingChosen := Status("Error", "Select File to upload")
  const UploadingFile := Status("Uploading", "Uploading file")

  /** What the multipart body holds under "files": the `File` itself, or, when
      `files[0]` is undefined, the text into which `FormData.append` turns it. */
  datatype Part = FilePart(file: FileEntry) | TextPart(text: string)

  /** The part appended for `files[0]`. */
  function FirstPart(items: seq<FileEntry>): Part
  {
    if |items| > 0 then FilePart(items[0]) else TextPart("undefined")
  }

  /** One request to the upload endpoint: its "files" part, and whether a
      "timestamp" part was appended beside it. */
  datatype UploadRequest = UploadRequest(files: Part, timestamped: bool)

  /** The link-resolution URL is this prefix followed by the uploaded file's name. */
  const LinkUrlPrefix := "/api/image?id="

  /** The notification `copyToClipboard` raises. */
  datatype Toast = Success(message: string) | Warn(message: string)

  /** Which parts of the clipboard API the browser provides. */
  datatype Browser = Browser(hasNavigator: bool, hasClipboard: bool, hasWriteText: bool)

  /** The seven pieces of component state as one value. */
  datatype HomeState = HomeState(
    imageLink: Option<string>,
    track: bool,
    file: FileState,
    uploading: bool,
    uploadingPercentage: Percent,
    finalLink: string,
    status: Status)

  /** The state of a freshly mounted component. */
  const InitialState := HomeState(None, false, Undefined, false, Finite(0), "", Blank)

  /** The state `resetFunc` leaves: the initial one, except that `file` is null
      where it started undefined. */
  const ResetState := HomeState(None, false, Null, false, Finite(0), "", Blank)

  /** The reset state differs from the initial one only in `file`, and in neither
      is `file` truthy, so no handler can tell the two apart. */
  lemma ResetStateActsInitial()
    ensures ResetState.(file := Undefined) == InitialState
    ensures !ResetState.file.IsTruthy() && !InitialState.file.IsTruthy()
  {
  }

  class Home {
    var imageLink: Option<string>
    var track: bool
    var file: FileState
    var uploading: bool
    var uploadingPercentage: Percent
    var finalLink: string
    var status: Status

    /** Every upload request sent, oldest first. */
    ghost var uploads: seq<UploadRequest>
    /** Every link-resolution URL requested, oldest first. */
    ghost var linkRequests: seq<string>

    /** The component state as one value. */
    function State(): HomeState
      reads this
    {
      HomeState(imageLink, track, file, uploading, uploadingPercentage, finalLink, status)
    }

    /** Mounting the component: every field at its `useState` default, nothing sent. */
    constructor ()
      ensures State() == InitialState
      ensures uploads == [] && linkRequests == []
    {
      imageLink := None;
      track := false;
      file := Undefined;
      uploading := false;
      uploadingPercentage := Finite(0);
      finalLink := "";
      status := Blank;
      uploads := [];
      linkRequests := [];
    }

    /** `setFile`, as the drop site calls it with the dropped file list. */
    method SetFile(files: FileState)
      modifies this
      ensures State() == old(State()).(file := files)
      ensures uploads == old(uploads) && linkRequests == old(linkRequests)
    {
      file := files;
    }

    /** `uploadFiles`: sends one request to the upload endpoint. */
    method UploadFiles(request: UploadRequest)
      modifies this
      ensures State() == old(State())
      ensures uploads == old(uploads) + [request]
      ensures linkRequests == old(linkRequests)
    {
      uploads := uploads + [request];
    }

    /** `createLink`: sends one link-resolution request. */
    method CreateLink(url: string)
      modifies this
      ensures State() == old(State())
      ensures uploads == old(uploads)
      ensures linkRequests == old(linkRequests) + [url]
    {
      linkRequests := linkRequests + [url];
    }

    /** `formDataFunc`: shows the overlay, then sends `items[0]` with a timestamp. */
    method FormDataFunc(items: seq<FileEntry>)
      modifies this
      ensures State() == old(State()).(uploading := true, status := SendingFile)
      ensures uploads == old(uploads) + [UploadRequest(FirstPart(items), true)]
      ensures linkRequests == old(linkRequests)
    {
      uploading := true;
      status := SendingFile;
      UploadFiles(UploadRequest(FirstPart(items), true));
    }

    /** `onDropFunc`: validates the `file` state and, for an accepted image, uploads
        its first file. `threw` reports the TypeError raised when the state holds
        an empty file list, whose first entry has no `type` to read. */
    method OnDropFunc() returns (threw: bool)
      modifies this
      ensures threw <==> old(file) == Files([])
      ensures !old(file).IsTruthy() ==>
        State() == old(State()).(uploading := true, status := NothingDropped)
      ensures old(file) == Files([]) ==>
        State() == old(State()).(uploading := true, status := Checking)
      ensures WrongType(old(file)) ==>
        State() == old(State()).(uploading := true, status := NotAnImage)
      ensures ImageSelected(old(file)) ==>
        State() == old(State()).(uploading := true, status := SendingFile) &&
        uploads == old(uploads) + [UploadRequest(FilePart(old(file).items[0]), true)]
      ensures !ImageSelected(old(file)) ==> uploads == old(uploads)
      ensures linkRequests == old(linkRequests)
    {
      threw := false;
      uploading := true;
      match file
      case Files(items) =>
        status := Checking;
        if |items| == 0 {
          threw := true;
        } else if IsImageType(items[0].mimeType) {
          FormDataFunc(items);
        } else {
          status := NotAnImage;
        }
      case _ =>
        status := NothingDropped;
    }

    /** The drop zone's `onDrop` callback, as written: `setFile(files)` and then
        `onDropFunc()`. `onDropFunc` runs in the closure of the current render,
        so it validates the `file` the page held BEFORE this drop; the dropped
        list only becomes `file` for the next event. */
    method Drop(files: FileState) returns (threw: bool)
      modifies this
      ensures threw <==> old(file) == Files([])
      ensures !old(file).IsTruthy() ==>
        State() == old(State()).(file := files, uploading := true, status := NothingDropped)
      ensures old(file) == Files([]) ==>
        State() == old(State()).(file := files, uploading := true, status := Checking)
      ensures WrongType(old(file)) ==>
        State() == old(State()).(file := files, uploading := true, status := NotAnImage)
      ensures ImageSelected(old(file)) ==>
        State() == old(State()).(file := files, uploading := true, status := SendingFile) &&
        uploads == old(uploads) + [UploadRequest(FilePart(old(file).items[0]), true)]
      ensures !ImageSelected(old(file)) ==> uploads == old(uploads)
      ensures linkRequests == old(linkRequests)
    {
      threw := OnDropFunc();
      file := files;
    }

    /** The `onUploadProgress` option of `uploadFiles`, for a progress event
        carrying the byte counts `loaded` and `total`. */
    method OnUploadProgress(loaded: int, total: int)
      requires 0 <= loaded && 0 <= total
      modifies this
      ensures State() == old(State()).(uploadingPercentage := RoundedPercent(loaded, total))
      ensures uploads == old(uploads) && linkRequests == old(linkRequests)
    {
      uploadingPercentage := RoundedPercent(loaded, total);
    }

    /** The `.then` of `uploadFiles`: on HTTP status 200 or 201, requests the link
        for the returned `filename`; the "Uploaded" status it sets first is
        overwritten before the handler ends. Any other status changes nothing. */
    method OnUploadResult(code: int, filename: string)
      modifies this
      ensures code == 200 || code == 201 ==>
        State() == old(State()).(status := GeneratingLink) &&
        linkRequests == old(linkRequests) + [LinkUrlPrefix + filename]
      ensures code != 200 && code != 201 ==>
        State() == old(State()) && linkRequests == old(linkRequests)
      ensures uploads == old(uploads)
    {
      if code == 200 || code == 201 {
        status := FileUploaded;
        CreateLink(LinkUrlPrefix + filename);
        status := GeneratingLink;
      }
    }

    /** The `.catch` of `uploadFiles`: the upload failed. */
    method OnUploadError()
      modifies this
      ensures State() == old(State()).(status := UploadFailed)
      ensures uploads == old(uploads) && linkRequests == old(linkRequests)
    {
      status := UploadFailed;
    }

    /** The `.then` of `createLink`: stores both paths the server returned and
        closes the overlay; the "Link Generated" status is overwritten at once. */
    method OnLinkResult(path: string, copyPath: string)
      modifies this
      ensures State() == old(State()).(
        finalLink := path, imageLink := Some(copyPath), uploading := false, status := Blank)
      ensures uploads == old(uploads) && linkRequests == old(linkRequests)
    {
      status := LinkGenerated;
      finalLink := path;
      imageLink := Some(copyPath);
      uploading := false;
      status := Blank;
    }

    /** The `.catch` of `createLink`: the link could not be generated. */
    method OnLinkError()
      modifies this
      ensures State() == old(State()).(status := LinkFailed)
      ensures uploads == old(uploads) && linkRequests == old(linkRequests)
    {
      status := LinkFailed;
    }

    /** `onFileInput`, for the picker's `files` (None for null). Any non-null list
        is sent, without a type check and without a timestamp; an empty one sends
        the text "undefined". The error status set for null is overwritten. */
    method OnFileInput(files: Option<seq<FileEntry>>)
      modifies this
      ensures State() == old(State()).(uploading := true, status := UploadingFile)
      ensures files.None? ==> uploads == old(uploads)
      ensures files.Some? ==>
        uploads == old(uploads) + [UploadRequest(FirstPart(files.value), false)]
      ensures files.Some? && files.value == [] ==>
        uploads == old(uploads) + [UploadRequest(TextPart("undefined"), false)]
      ensures linkRequests == old(linkRequests)
    {
      if files.None? {
        status := NothingChosen;
      }
      uploading := true;
      status := UploadingFile;
      if files.Some? {
        UploadFiles(UploadRequest(FirstPart(files.value), false));
      }
    }

    /** `uploadstatus`, which the overlay calls to show or hide itself. */
    method UploadStatus(e: bool)
      modifies this
      ensures State() == old(State()).(uploading := e, status := Blank)
      ensures uploads == old(uploads) && linkRequests == old(linkRequests)
    {
      uploading := e;
      status := Blank;
    }

    /** `resetFunc`: from any state, every field back to its default. */
    method ResetFunc()
      modifies this
      ensures State() == ResetState
      ensures uploads == old(uploads) && linkRequests == old(linkRequests)
    {
      imageLink := None;
      track := false;
      file := Null;
      uploading := false;
      uploadingPercentage := Finite(0);
      finalLink := "";
      status := Blank;
    }

    /** The branch of `copyToClipboard`: with `navigator.clipboard.writeText`
        present, `str` is written and a success toast raised; otherwise only a
        warning toast. No component state changes. */
    method CopyToClipboard(str: string, browser: Browser) returns (toast: Toast, written: Option<string>)
      ensures toast.Success? <==> browser.hasNavigator && browser.hasClipboard && browser.hasWriteText
      ensures toast.Success? ==> toast.message == "Link copied" && written == Some(str)
      ensures toast.Warn? ==>
        toast.message == "Copy API is not available in your browser" && written == None
    {
      if browser.hasNavigator && browser.hasClipboard && browser.hasWriteText {
        written := Some(str);
        toast := Success("Link copied");
      } else {
        written := None;
        toast := Warn("Copy API is not available in your browser");
      }
    }
  }
}
