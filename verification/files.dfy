/** What the upload components and the upload route know about a file, and
    the limits they share. */
module Files {
  import opened Wrappers
  import opened Text

  /** A browser `File`, reduced to the two attributes the program inspects. */
  datatype UploadedFile = UploadedFile(name: string, size: nat)

  /** 10 MiB, written `10 * 1024 * 1024` in both the client gate and the route. */
  const MaxUploadBytes: nat := 10 * 1024 * 1024

  const DocxSuffix := ".docx"
  const PdfSuffix := ".pdf"

  /** The client-side extension gate: the name ends in `.docx` or `.pdf`. */
  predicate IsDocumentName(name: string) {
    EndsWith(name, DocxSuffix) || EndsWith(name, PdfSuffix)
  }

  /** A drop, or a change of the file input, hands over only its first file. */
  function FirstFile<T>(files: seq<T>): (first: Option<T>)
    ensures first.None? <==> |files| == 0
    ensures first.Some? ==> first.value == files[0]
  {
    if |files| > 0 then Some(files[0]) else None
  }

  /** A name that ends in `.pdf` does not end in `.docx`. */
  lemma PdfIsNotDocx(name: string)
    requires EndsWith(name, PdfSuffix)
    ensures !EndsWith(name, DocxSuffix)
  {
    assert name[|name| - 1] == PdfSuffix[3];
  }
}
