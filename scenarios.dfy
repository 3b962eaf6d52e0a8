/** Whole sessions of the upload page, run against the handlers' contracts alone:
    each method drives a fresh `Home` through the events of one session and
    asserts what the user would see and what would have been sent. */
module Scenarios {
  import opened MimeFilter
  import opened Progress
  import opened UploadPage

  /** A PNG is dropped on a fresh page: validation sees the previous, still
      undefined `file`, so the drop reports a missing file and sends nothing.
      Dropping again uploads the PNG of the first drop, and the session then
      ends with a link. */
  method PngUploadGetsLink()
  {
    var home := new Home();
    var png := FileEntry("cat.png", "image/png");
    var threw := home.Drop(Files([png]));
    assert !threw && home.uploading && home.status == NothingDropped;
    assert home.uploads == [] && home.file == Files([png]);

    CommonImageTypesAccepted();
    threw := home.Drop(Files([png]));
    assert !threw && home.uploading && home.status == SendingFile;
    assert home.uploads == [UploadRequest(FilePart(png), true)];

    home.OnUploadProgress(512, 1024);
    RoundingIsUnique(512, 1024, 50);
    assert home.uploadingPercentage == Finite(50);

    home.OnUploadResult(201, "cat-17.png");
    assert LinkUrlPrefix + "cat-17.png" == "/api/image?id=cat-17.png";
    assert home.linkRequests == ["/api/image?id=cat-17.png"];
    assert home.status == GeneratingLink && home.imageLink == None;

    home.OnLinkResult("/uploads/cat-17.png", "https://example.org/image/cat-17");
    assert home.imageLink == Some("https://example.org/image/cat-17");
    assert home.finalLink == "/uploads/cat-17.png";
    assert !home.uploading && home.status == Blank;
    assert |home.uploads| == 1 && |home.linkRequests| == 1;
  }

  /** A text file is dropped after an image: the drop uploads the earlier image,
      and the next drop refuses the text file and sends nothing more. */
  method TextFileRefused()
  {
    var home := new Home();
    var gif := FileEntry("a.gif", "image/gif");
    home.SetFile(Files([gif]));
    var threw := home.Drop(Files([FileEntry("notes.txt", "text/plain")]));
    assert home.uploads == [UploadRequest(FilePart(gif), true)];
    PlainTextRejected();
    threw := home.Drop(Files([FileEntry("notes.txt", "text/plain")]));
    assert !threw && home.uploading && home.status == NotAnImage;
    assert |home.uploads| == 1 && home.linkRequests == [];
  }

  /** Validation before any file was set reports the missing file and sends nothing. */
  method DropWithoutFile()
  {
    var home := new Home();
    var threw := home.OnDropFunc();
    assert !threw && home.uploading && home.status == NothingDropped;
    assert home.uploads == [];
  }

  /** With an icon already in `file`, validation uploads it; the upload fails,
      the error is shown and no link exists. */
  method UploadFailureShowsError()
  {
    var home := new Home();
    home.SetFile(Files([FileEntry("logo.ico", "image/x-icon")]));
    IconAcceptedBySubstring();
    var threw := home.OnDropFunc();
    assert |home.uploads| == 1;
    home.OnUploadError();
    assert home.status == UploadFailed;
    assert home.imageLink == None && home.finalLink == "";
    assert home.linkRequests == [];
  }

  /** Link resolution fails after a good upload: the error is shown, no link stored. */
  method LinkFailureShowsError()
  {
    var home := new Home();
    home.OnFileInput(Some([FileEntry("a.gif", "image/gif")]));
    home.OnUploadResult(200, "a.gif");
    assert LinkUrlPrefix + "a.gif" == "/api/image?id=a.gif";
    home.OnLinkError();
    assert home.status == LinkFailed;
    assert home.imageLink == None && home.finalLink == "";
    assert home.linkRequests == ["/api/image?id=a.gif"];
  }

  /** A success response with a status other than 200 or 201 is ignored. */
  method AcceptedResponseIgnored()
  {
    var home := new Home();
    home.OnFileInput(Some([FileEntry("a.gif", "image/gif")]));
    var before := home.State();
    home.OnUploadResult(202, "a.gif");
    assert home.State() == before && home.linkRequests == [];
  }

  /** The picker reports no file list: the later status hides the error, nothing is sent. */
  method PickerWithoutFiles()
  {
    var home := new Home();
    home.OnFileInput(None);
    assert home.uploading && home.status == UploadingFile;
    assert home.uploads == [];
  }

  /** The picker reports an empty file list: the text "undefined" is uploaded. */
  method PickerWithEmptyList()
  {
    var home := new Home();
    home.OnFileInput(Some([]));
    assert home.uploads == [UploadRequest(TextPart("undefined"), false)];
  }

  /** Copying without the clipboard API only warns; the page state is untouched. */
  method CopyWithoutClipboard()
  {
    var home := new Home();
    home.OnLinkResult("/uploads/x.png", "https://example.org/image/x");
    var before := home.State();
    var toast, written := home.CopyToClipboard("https://example.org/image/x", Browser(true, false, false));
    assert toast == Warn("Copy API is not available in your browser") && written == None;
    assert home.State() == before;
  }

  /** Reset twice gives the same state as reset once. */
  method ResetIsIdempotent()
  {
    var home := new Home();
    home.OnFileInput(Some([FileEntry("b.bmp", "image/bmp")]));
    home.OnUploadProgress(3, 4);
    home.ResetFunc();
    var once := home.State();
    home.ResetFunc();
    assert home.State() == once == ResetState;
  }

  /** The source has no guard against late responses: a link that arrives after a
      reset is still stored. */
  method LateLinkAfterResetApplied()
  {
    var home := new Home();
    home.OnFileInput(Some([FileEntry("c.png", "image/png")]));
    home.OnUploadResult(200, "c.png");
    home.ResetFunc();
    home.OnLinkResult("/uploads/c.png", "https://example.org/image/c");
    assert home.imageLink == Some("https://example.org/image/c");
  }
}
