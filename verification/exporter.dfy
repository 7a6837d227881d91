/**
  `export`: one listing request, then the labels are returned to the caller,
  printed, or dumped into a file.

  The listing's projection to {name, color} is a lazy generator: it is built
  inside a `try` that catches `KeyError`, but nothing is looked up until the
  generator is consumed, by `print(list(labels))`, by `json.dump(list(labels))`
  after the file has been opened for writing, or by the caller it is returned
  to. `Export` models that as written; `ExportChecked` is the evidently
  intended behaviour, which rejects a malformed listing before any output.
 */
module Exporter {
  import opened Labels

  /** The listing response: `success` when `raise_for_status()` returns, and
      `response.json()` as a list of objects, or None when it raises ValueError. */
  datatype Response = Response(success: bool, body: Option<seq<Entry>>)

  /** A response `export` continues with: retrievable, parseable and not empty. */
  predicate Usable(response: Response) {
    response.success && response.body.Some? && response.body.value != []
  }

  /** How `export` ends. */
  datatype ExportOutcome =
    | Fatal(reason: Message)                // print(reason); exit(1)
    | Returned(stream: seq<Entry>)          // `return labels`: the unconsumed generator over the listing
    | Printed(labels: seq<Label>)           // print(list(labels)); return None
    | Written(labels: seq<Label>)           // json.dump(list(labels)) into the file
    | Crashed(error: PyError, truncated: bool)
                                            // consuming the generator raised; `truncated` when
                                            // the file had already been opened with "w"

  /** What happens to the output file. */
  datatype FileEffect = Untouched | Truncated | Dumped(labels: seq<Label>)

  function FileEffectOf(o: ExportOutcome): FileEffect {
    match o
    case Written(ls) => Dumped(ls)
    case Crashed(_, truncated) => if truncated then Truncated else Untouched
    case _ => Untouched
  }

  /** `export(repo_url, file_name, display)`. An empty `fileName` stands for
      both the empty string and None; `fileExists` is what `isfile` says and
      `overwrite` the user's answer to the overwrite prompt. */
  function Export(response: Response, fileName: string, display: bool, fileExists: bool, overwrite: bool)
    : (o: ExportOutcome)
    // a failed or unparseable response, or an empty listing, is fatal
    ensures !response.success || response.body.None? ==> o == Fatal(InvalidRequest)
    ensures response.success && response.body == Some([]) ==> o == Fatal(EmptyResponse)
    // the file is touched only after a usable listing, and never against a declined prompt
    ensures FileEffectOf(o) != Untouched ==>
      Usable(response) && fileName != "" && (!fileExists || overwrite)
    // whatever is printed or dumped is the projection of the whole listing
    ensures o.Printed? || o.Written? ==>
      response.body.Some? && Materialise(response.body.value) == Ok(o.labels)
    // without a file name and without display, a usable listing itself, malformed or not,
    // goes back to the caller unconsumed
    ensures Usable(response) && fileName == "" && !display ==> o == Returned(response.body.value)
    // a declined overwrite prompt aborts after a usable listing
    ensures Usable(response) && fileName != "" && fileExists && !overwrite ==> o == Fatal(Aborting)
    // a usable listing is consumed when it is printed or dumped: the outcome is then
    // the projection, or the KeyError of its first malformed entry
    ensures Usable(response) && fileName == "" && display ==> o.Printed? || o.Crashed?
    ensures Usable(response) && fileName != "" && (!fileExists || overwrite) ==> o.Written? || o.Crashed?
    // a KeyError escapes only where the generator is consumed
    ensures o.Crashed? ==>
      && response.body.Some? && Materialise(response.body.value) == Err(o.error)
      && (fileName != "" || display)
      && (o.truncated <==> fileName != "")
  {
    if !response.success || response.body.None? then Fatal(InvalidRequest)
    else if response.body.value == [] then Fatal(EmptyResponse)
    else
      var data := response.body.value;
      if fileName == "" then
        if display then
          match Materialise(data)
          case Ok(ls) => Printed(ls)
          case Err(e) => Crashed(e, false)
        else Returned(data)
      else if fileExists && !overwrite then Fatal(Aborting)
      else
        match Materialise(data)
        case Ok(ls) => Written(ls)
        case Err(e) => Crashed(e, true)
  }

  /** The four output choices once a usable, well-formed listing has arrived. */
  lemma ExportOutputChoice(response: Response, fileName: string, display: bool, fileExists: bool, overwrite: bool)
    requires Usable(response) && WellFormed(response.body.value)
    ensures var o := Export(response, fileName, display, fileExists, overwrite);
      var ls := Materialise(response.body.value).value;
      && (fileName == "" && display ==> o == Printed(ls))
      && (fileName == "" && !display ==> o == Returned(response.body.value))
      && (fileName != "" && fileExists && !overwrite ==> o == Fatal(Aborting))
      && (fileName != "" && (!fileExists || overwrite) ==> o == Written(ls) && FileEffectOf(o) == Dumped(ls))
  {
  }

  /** A usable but malformed listing is not caught by the `try`: where the
      generator is consumed (printed, or dumped into a file the user may
      overwrite) the KeyError of the first malformed entry escapes, and on the
      file path only after the file has been truncated. */
  lemma MalformedCrashesWhenConsumed(response: Response, fileName: string, display: bool, fileExists: bool, overwrite: bool)
    requires Usable(response) && !WellFormed(response.body.value)
    requires fileName != "" || display
    requires !(fileName != "" && fileExists && !overwrite)
    ensures var o := Export(response, fileName, display, fileExists, overwrite);
      && o == Crashed(Materialise(response.body.value).error, fileName != "")
      && FileEffectOf(o) == (if fileName != "" then Truncated else Untouched)
  {
  }

  /** Declining the overwrite prompt exits with status 1 and leaves the file
      alone; after a usable listing the exit is 'Aborting...'. */
  lemma DeclinedOverwriteWritesNothing(response: Response, fileName: string, display: bool)
    requires fileName != ""
    ensures var o := Export(response, fileName, display, true, false);
      && o.Fatal? && FileEffectOf(o) == Untouched
      && (Usable(response) ==> o == Fatal(Aborting))
  {
  }

  /** A listing entry without "color", exported to a new file: the `try` around
      the generator does not catch the KeyError, which escapes from
      `json.dump` after `open(..., "w")` has created the file empty. */
  lemma MalformedEntryEscapesTry()
    ensures var response := Response(true, Some([map["name" := "bug"]]));
      && Export(response, "labels.json", false, false, false) == Crashed(KeyError("color"), true)
      && FileEffectOf(Export(response, "labels.json", false, false, false)) == Truncated
  {
  }

  /** `export` with the projection validated where the `try` stands: a
      malformed listing prints 'Invalid response' and exits before any output. */
  function ExportChecked(response: Response, fileName: string, display: bool, fileExists: bool, overwrite: bool)
    : (o: ExportOutcome)
    ensures !o.Crashed?
    ensures Usable(response) && !WellFormed(response.body.value) ==> o == Fatal(InvalidResponse)
    ensures FileEffectOf(o) != Untouched ==>
      Usable(response) && WellFormed(response.body.value) && fileName != "" && (!fileExists || overwrite)
    ensures o.Returned? ==> WellFormed(o.stream)
    ensures Usable(response) && WellFormed(response.body.value) && fileName == "" && !display ==>
      o == Returned(response.body.value)
  {
    if Usable(response) && !WellFormed(response.body.value) then Fatal(InvalidResponse)
    else Export(response, fileName, display, fileExists, overwrite)
  }

  /** On a well-formed listing, or on one that is already fatal, the corrected
      export behaves as the original. */
  lemma ExportCheckedAgrees(response: Response, fileName: string, display: bool, fileExists: bool, overwrite: bool)
    requires !Usable(response) || WellFormed(response.body.value)
    ensures ExportChecked(response, fileName, display, fileExists, overwrite)
         == Export(response, fileName, display, fileExists, overwrite)
  {
  }
}
