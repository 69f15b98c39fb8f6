/** The `FileUpload` component: a drop zone that gates a file by extension
    and size and then awaits the caller's `onFileUpload` callback, showing
    an "uploading" indicator meanwhile. A call of the handler is modelled by
    the effects it performs, in order; the callback's own behaviour is
    outside the model and only its outcome (resolved or thrown) is a
    parameter. */
module FileUpload {
  import opened Wrappers
  import opened Files

  const WrongType := "Alleen .docx en .pdf bestanden zijn toegestaan!"
  const TooBig := "Bestand is te groot! Maximum grootte is 10MB."

  datatype Effect =
    | Alert(message: string)
    | SetUploading(on: bool)
    | InvokeUpload(file: UploadedFile)
      /** `console.error` of a callback failure */
    | LogUploadError

  datatype CallbackOutcome = Resolved | Threw

  /** Why the gate turns a file away, in the order the checks run. */
  datatype Rejection = BadExtension | Oversized

  /** The gate of `handleFileSelect`: the extension check runs first, the
      size check only on a document name. */
  function Gate(file: UploadedFile): (r: Option<Rejection>)
    ensures r == Some(BadExtension) <==> !IsDocumentName(file.name)
    ensures r == Some(Oversized) <==> IsDocumentName(file.name) && file.size > MaxUploadBytes
    ensures r == None <==> IsDocumentName(file.name) && file.size <= MaxUploadBytes
  {
    if !IsDocumentName(file.name) then Some(BadExtension)
    else if file.size > MaxUploadBytes then Some(Oversized)
    else None
  }

  /** How many times the effects call the upload callback. */
  function Invocations(effects: seq<Effect>): nat {
    if |effects| == 0 then 0
    else (if effects[0].InvokeUpload? then 1 else 0) + Invocations(effects[1..])
  }

  /** The `isUploading` flag after the effects, starting from `flag`: the
      last `SetUploading` wins. */
  function UploadingAfter(flag: bool, effects: seq<Effect>): bool
    decreases |effects|
  {
    if |effects| == 0 then flag
    else UploadingAfter(if effects[0].SetUploading? then effects[0].on else flag, effects[1..])
  }

  /** `handleFileSelect`: a rejected file only raises an alert; an accepted
      one sets the flag, awaits the callback when there is one, and clears
      the flag in `finally`, whether or not the callback threw. */
  function SelectFile(file: UploadedFile, hasCallback: bool, outcome: CallbackOutcome)
    : (effects: seq<Effect>)
    ensures Invocations(effects) <= 1
    ensures Invocations(effects) == 1 <==> Gate(file).None? && hasCallback
    ensures Gate(file) == Some(BadExtension) ==> effects == [Alert(WrongType)]
    ensures Gate(file) == Some(Oversized) ==> effects == [Alert(TooBig)]
    ensures Gate(file).Some? ==> forall flag :: UploadingAfter(flag, effects) == flag
    ensures Gate(file).None? ==> forall flag :: !UploadingAfter(flag, effects)
    ensures forall k :: 0 <= k < |effects| && effects[k].InvokeUpload? ==>
              effects[k].file == file && forall flag :: UploadingAfter(flag, effects[..k])
  {
    match Gate(file)
    case Some(BadExtension) => [Alert(WrongType)]
    case Some(Oversized) => [Alert(TooBig)]
    case None =>
      if !hasCallback then
        [SetUploading(true), SetUploading(false)]
      else if outcome == Resolved then
        [SetUploading(true), InvokeUpload(file), SetUploading(false)]
      else
        [SetUploading(true), InvokeUpload(file), LogUploadError, SetUploading(false)]
  }

  /** The upload error is logged exactly when the callback ran and threw. */
  lemma SelectFileLogs(file: UploadedFile, hasCallback: bool, outcome: CallbackOutcome)
    ensures LogUploadError in SelectFile(file, hasCallback, outcome)
            <==> Gate(file).None? && hasCallback && outcome == Threw
  {
    var effects := SelectFile(file, hasCallback, outcome);
    if Gate(file).None? && hasCallback && outcome == Threw {
      assert effects[2] == LogUploadError;
    } else {
      assert forall k :: 0 <= k < |effects| ==> effects[k] != LogUploadError;
    }
  }

  /** `handleDrop`: only the first dropped file is handled; an empty drop
      does nothing. */
  function Drop(files: seq<UploadedFile>, hasCallback: bool, outcome: CallbackOutcome)
    : (effects: seq<Effect>)
    ensures |files| == 0 ==> effects == []
    ensures |files| > 0 ==> effects == SelectFile(files[0], hasCallback, outcome)
  {
    match FirstFile(files)
    case None => []
    case Some(file) => SelectFile(file, hasCallback, outcome)
  }
}
