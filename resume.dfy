/**
  The resume download link on the Home view: a helper that reads a PDF and wraps
  its base64 text in an HTML anchor, falling back to a fixed message when the file
  does not exist, and the Home view's test of which of the two it got.
 */
module Resume {

  type Byte = bv8

  /** What opening and reading the resume file produced. */
  datatype ReadOutcome = Read(data: seq<Byte>) | FileNotFound

  /** What the Home view puts in the resume area. */
  datatype ResumeArea =
    | ShowLink(markup: string)
    | WarnAndUpload(warning: string)

  /** The fixed text the helper returns when the file is missing. */
  const NotFound := "Resume file not found"

  /** The start of every anchor the helper builds. */
  const LinkPrefix := "<a href=\"data:application/pdf;base64,"

  /** The warning shown above the upload control. */
  const MissingWarning := "Resume file not found. Please upload a resume.pdf file."

  /** The file name the Home view offers for download. */
  const DownloadName := "Samuel_Cyuzuzo_Resume.pdf"

  /** The helper: the anchor around `encode(data)` when the read succeeded, the
      fixed message when the file was not found. `encode` stands for base64
      encoding followed by decoding to text. */
  function DownloadLink(read: ReadOutcome, fileName: string, encode: seq<Byte> -> string): (s: string)
    ensures read.FileNotFound? ==> s == NotFound
    ensures read.Read? ==> LinkPrefix + encode(read.data) <= s
  {
    match read
    case FileNotFound => NotFound
    case Read(data) =>
      LinkPrefix + encode(data) + "\" download=\"" + fileName + "\">\U{1F4C4} Download Resume</a>"
  }

  /** The Home view's branch on the helper's result. */
  function HomeResumeArea(resumeLink: string): (a: ResumeArea)
    ensures a.ShowLink? <==> resumeLink != NotFound
    ensures a.ShowLink? ==> a.markup == resumeLink
    ensures a.WarnAndUpload? ==> a.warning == MissingWarning
  {
    if resumeLink != NotFound then ShowLink(resumeLink) else WarnAndUpload(MissingWarning)
  }

  /** The resume area of the Home view, given what reading `resume.pdf` produced. */
  function HomeResume(read: ReadOutcome, encode: seq<Byte> -> string): (a: ResumeArea)
    ensures read.FileNotFound? ==> a == WarnAndUpload(MissingWarning)
    ensures read.Read? ==> a.ShowLink? && LinkPrefix <= a.markup
  {
    HomeResumeArea(DownloadLink(read, DownloadName, encode))
  }

  /** A successful read never yields the not-found message, whatever the file holds,
      whatever its name and whatever the encoder returns. */
  lemma LinkIsNeverNotFound(data: seq<Byte>, fileName: string, encode: seq<Byte> -> string)
    ensures DownloadLink(Read(data), fileName, encode) != NotFound
  {
  }

  /** The Home view shows the link exactly when the read succeeded, and then shows
      the helper's anchor unchanged; it shows the warning and the upload control
      exactly when the file was missing. */
  lemma HomeShowsLinkIffRead(read: ReadOutcome, encode: seq<Byte> -> string)
    ensures HomeResume(read, encode).ShowLink? <==> read.Read?
    ensures read.Read? ==> HomeResume(read, encode) == ShowLink(DownloadLink(read, DownloadName, encode))
    ensures read.FileNotFound? ==> HomeResume(read, encode) == WarnAndUpload(MissingWarning)
  {
  }
}
