/** The `/api/upload-docx` route: validates the posted file, hands it to the
    document converter and answers with the extracted text and its counts.
    The converter (mammoth's raw-text extraction) is outside the model: its
    outcome is passed in as `extraction`, `None` when it throws. */
module UploadDocxRoute {
  import opened Wrappers
  import opened Text
  import opened Files
  import opened Http

  const MissingFile := "Geen bestand gevonden"
  const OnlyDocx := "Alleen .docx bestanden zijn toegestaan"
  const FileTooLarge := "Bestand is te groot (max 10MB)"
  const ProcessingFailed := "Er is een fout opgetreden bij het verwerken van het bestand"
  const GetNotAllowed := "GET method not allowed. Use POST to upload files."
  const DocxFileType := "Word Document (.docx)"

  /** What `formData.get('file')` yields: nothing, a plain text field, or a file. */
  datatype FileEntry = NoEntry | TextEntry(value: string) | Attached(file: UploadedFile)

  /** The request body: `request.formData()` either throws or yields the entry. */
  datatype Form = Unreadable | Form(entry: FileEntry)

  /** The form carries no file: `!file` holds for a missing entry and for an
      empty text field. */
  predicate IsMissing(form: Form) {
    form.Form? && (form.entry.NoEntry? || form.entry == TextEntry(""))
  }

  /** The form carries a file that passes both checks of the route. */
  predicate IsAcceptable(form: Form) {
    && form.Form? && form.entry.Attached?
    && EndsWith(form.entry.file.name, DocxSuffix)
    && form.entry.file.size <= MaxUploadBytes
  }

  /** `POST`: missing file, then extension, then size; the first failing check
      decides the answer and nothing after it runs. A non-empty text field
      in place of the file makes `file.name.endsWith` throw, which the
      handler's catch turns into a 500, as it does any converter failure. */
  function Post(form: Form, extraction: Option<string>): (resp: Response)
    ensures IsMissing(form) ==> resp == Response(400, ErrorBody(MissingFile))
    ensures form.Form? && form.entry.Attached? && !EndsWith(form.entry.file.name, DocxSuffix)
            ==> resp == Response(400, ErrorBody(OnlyDocx))
    ensures form.Form? && form.entry.Attached? && EndsWith(form.entry.file.name, DocxSuffix)
            && form.entry.file.size > MaxUploadBytes
            ==> resp == Response(400, ErrorBody(FileTooLarge))
    ensures form.Unreadable? || (form.Form? && form.entry.TextEntry? && form.entry.value != "")
            || (IsAcceptable(form) && extraction.None?)
            ==> resp == Response(500, ErrorBody(ProcessingFailed))
    ensures resp.status == 200 <==> IsAcceptable(form) && extraction.Some?
    ensures resp.status != 200 ==> resp.body.ErrorBody?
    ensures resp.status == 500 <==> resp.body == ErrorBody(ProcessingFailed)
    ensures resp.status == 200 ==>
              && resp.body.Uploaded?
              && resp.body.filename == form.entry.file.name
              && resp.body.size == form.entry.file.size
              && resp.body.fileType == DocxFileType
              && resp.body.content == extraction.value
              && resp.body.characterCount == |extraction.value|
              && resp.body.wordCount == |Words(extraction.value)|
              && resp.body.wordCount <= resp.body.characterCount
              && (resp.body.wordCount == 0 <==> IsBlank(extraction.value))
  {
    match form
    case Unreadable => Response(500, ErrorBody(ProcessingFailed))
    case Form(NoEntry) => Response(400, ErrorBody(MissingFile))
    case Form(TextEntry(v)) =>
      if v == "" then Response(400, ErrorBody(MissingFile))
      else Response(500, ErrorBody(ProcessingFailed))
    case Form(Attached(file)) =>
      if !EndsWith(file.name, DocxSuffix) then Response(400, ErrorBody(OnlyDocx))
      else if file.size > MaxUploadBytes then Response(400, ErrorBody(FileTooLarge))
      else
        match extraction
        case None => Response(500, ErrorBody(ProcessingFailed))
        case Some(text) =>
          Response(200, Uploaded(file.name, file.size, DocxFileType, text,
                                 |Words(text)|, |text|))
  }

  /** A request the checks reject never reaches the converter: its answer is
      the same whatever the converter would have produced. */
  lemma RejectionIgnoresExtraction(form: Form, e1: Option<string>, e2: Option<string>)
    requires Post(form, e1).status == 400
    ensures Post(form, e2) == Post(form, e1)
  {
  }

  /** A `.docx` file of exactly 10 MiB passes the size check. */
  lemma TenMiBIsAccepted(name: string, text: string)
    requires EndsWith(name, DocxSuffix)
    ensures Post(Form(Attached(UploadedFile(name, MaxUploadBytes))), Some(text)).status == 200
  {
  }

  /** `GET` is refused whatever the request. */
  function Get(): (resp: Response)
    ensures resp.status == 405 && resp.body.ErrorBody?
  {
    Response(405, ErrorBody(GetNotAllowed))
  }
}
