# Issue-label synchronisation, modelled in Dafny

This project models the workflow of `final-script-using-fstring.py`. The
script copies a repository's issue labels (name and color) between the
label API of a hosting service and a local JSON file. It has three commands:

- `export` fetches the label listing once. A failed, unparseable or empty
  listing is fatal (exit status 1). Otherwise each entry is projected to
  `{name, color}` by a lazy generator. The result is returned to the caller,
  printed, or dumped into a file, and an existing file is overwritten only
  after the user confirms.
- `import_labels` reads a list of label objects from a file and sends one
  create request per label. A refused request adds the label's name to
  `errors` and the loop continues. The run then ends as full success, as a
  partial failure (a report, normal return) or as total failure (exit
  status 1).
- `clean` lists the labels through `export`, sends one delete request per
  label and accumulates the refused names in the same way.

Every call to the network, the file system or the console is an input or an
output of the model:

- `accepts` / `deleted` (`nat -> bool`) give the service's verdict on the
  request for the label at each position.
- `Response` is the listing: whether `raise_for_status()` passed, and the
  parsed body, or `None` when `response.json()` fails.
- `Option<seq<Entry>>` is the parsed input file.
- `fileExists` and `overwrite` are `isfile` and the user's answer to the
  prompt.
- Requests sent are returned as a `seq<Request>`.
- How a command ends is an `Outcome`: `Exit(1, message)`, `Done(message)` or
  `Raised(error)`. For `export` it is an `ExportOutcome`, with `Fatal`,
  `Returned`, `Printed`, `Written` and `Crashed`, plus the `FileEffect` on
  the output file.

Modules: `Labels` (entities, the projection, `list()` of the generator),
`Batch` (failure accounting and the three-way classification), `Exporter`,
`Importer`, `Cleaner`. The loops of `import_labels` and `clean` are methods
proved against the specification functions `FailedNames`, `FirstNameless`,
`FirstMalformed` and `DeleteRequests`. The straight-line decisions of
`export` are a function.

In two places the code does not do what its own messages and structure evidently intend, and the model follows the code:

- A malformed listing entry is not rejected inside the `try`. It raises
  KeyError later, after the output file has been truncated.
- `clean` crashes with TypeError instead of reporting a partial or a total
  failure.

Both are listed under Findings, each with a corrected member.

## Model

| member | source | states |
|---|---|---|
| `Labels.Project` | final-script-using-fstring.py:83 | one step of the generator succeeds exactly on an entry with both "name" and "color" and yields exactly those two values; otherwise it raises KeyError('name') when "name" is missing (looked up first) and KeyError('color') otherwise |
| `Labels.FirstMalformed` | final-script-using-fstring.py:83 | the generator yields the projection of every entry before the returned index, each of which has both keys, and raises at that index when it is inside the listing |
| `Labels.Materialise` | final-script-using-fstring.py:83 | `list(labels)` succeeds exactly when every entry has "name" and "color"; it then preserves length and order, and each label carries exactly its entry's name and color; otherwise it raises the KeyError of the first malformed entry |
| `Labels.Entries` | final-script-using-fstring.py:100-101 | the dumped JSON array holds one `{name, color}` object per label, in order |
| `Labels.MaterialiseEntries` | final-script-using-fstring.py:100-101 | a file written by `export` projects back to exactly the labels it was written from |
| `Batch.FailureCount` | final-script-using-fstring.py:38-39 | the number of refused requests never exceeds the number of labels |
| `Batch.FailedNames` | final-script-using-fstring.py:27-35 | `errors` after the first n labels has exactly one name per refused request among them, in input order |
| `Batch.FailedNamesMembership` | final-script-using-fstring.py:32-35 | a name is in `errors` if and only if some label among the first n was refused and carries that name |
| `Batch.AllRefused` | final-script-using-fstring.py:40 | `len(errors) == len(labels)` holds if and only if every request was refused |
| `Batch.NoneRefused` | final-script-using-fstring.py:37 | `errors` is empty if and only if every request was accepted |
| `Batch.Classify` | final-script-using-fstring.py:37-45 | the decision after the loop: full success iff `errors` is empty; total failure iff `errors` is non-empty and as long as the list of labels; otherwise a report whose count is the number of names it lists, over the given number of labels |
| `Batch.ClassifyBatch` | final-script-using-fstring.py:37-45 | total failure iff at least one label and all refused; full success iff none refused, an empty batch included; when some but not all were refused, exactly the report of the number refused out of the total, with their names in order |
| `Exporter.Export` | final-script-using-fstring.py:69-101 | a failed or unparseable response exits with 'Invalid request' and an empty listing with 'Empty response'; the file is touched only after a usable listing and never against a declined prompt; a declined prompt after a usable listing exits with 'Aborting...'; without a file and without display the usable listing itself, malformed or not, is returned unconsumed; with display, or with a file that may be written, a usable listing is consumed and the outcome is either the projection of the whole listing (printed or written) or the KeyError of its first malformed entry, which escapes the `try` and leaves a truncated file exactly on the file path |
| `Exporter.ExportOutputChoice` | final-script-using-fstring.py:88-101 | on a usable, well-formed listing: display prints the labels, no display returns them, an existing file with a declined prompt aborts, and otherwise the file receives the labels |
| `Exporter.MalformedCrashesWhenConsumed` | final-script-using-fstring.py:82-101 | on a usable listing with a malformed entry, printing or writing to a file the user may overwrite raises the first malformed entry's KeyError, not 'Invalid response'; the file is truncated on the file path and untouched on the print path |
| `Exporter.DeclinedOverwriteWritesNothing` | final-script-using-fstring.py:95-98 | declining the overwrite prompt exits with status 1 and the file is untouched; after a usable listing the exit is 'Aborting...' |
| `Exporter.MalformedEntryEscapesTry` | final-script-using-fstring.py:82-86 | exporting `[{"name": "bug"}]` to a new file raises KeyError('color') and leaves the file truncated |
| `Exporter.ExportChecked` | final-script-using-fstring.py:82-86 | the corrected export never raises; a malformed listing exits with 'Invalid response'; the file is touched only for a usable, well-formed listing; only a well-formed listing is returned, and without a file or display a usable, well-formed one always is |
| `Exporter.ExportCheckedAgrees` | final-script-using-fstring.py:82-86 | on a well-formed or already fatal listing, the corrected export behaves exactly as the original |
| `Importer.FirstNameless` | final-script-using-fstring.py:32-35 | the loop raises KeyError at the first refused label that has no "name"; every earlier label was accepted or is named |
| `Importer.ImportOutcome` | final-script-using-fstring.py:21-45 | an invalid JSON file exits with 'File is not a valid JSON'; an exception escapes iff some refused label has no "name", and it is KeyError('name'); every exit has status 1; a normal return reports either full success or a partial failure |
| `Importer.ImportLabels` | final-script-using-fstring.py:14-45 | an invalid JSON file exits with status 1 before any request; otherwise one create per label, in input order, carrying the object read, and a refused label never stops the loop except by the KeyError above, after its own request; `errors` is exactly the refused names in order; the outcome is the classification below |
| `Importer.ImportClassification` | final-script-using-fstring.py:37-45 | an exit happens iff at least one label and every create refused, and it is status 1 with 'All labels creation failed'; 'All labels imported successfully' iff none refused, an empty file included; when some but not all were refused the import returns normally with exactly the report of the number refused out of the total and their names; no exception escapes |
| `Importer.ExportedFileImportsEveryLabel` | final-script-using-fstring.py:32-35 | every label of a file written by `export` has a name, so the import loop never raises KeyError and runs over the whole list |
| `Importer.ImportExportedFile` | final-script-using-fstring.py:21-31 | importing a file written by `export` sends one create per exported label, in order, carrying exactly its name and color; `errors` is the refused names and no exception escapes |
| `Cleaner.DeleteRequests` | final-script-using-fstring.py:51-52 | one delete per label, by name, in listing order, up to the first entry the generator cannot project |
| `Cleaner.DeleteEach` | final-script-using-fstring.py:50-56 | the loop sends exactly those deletions, `errors` is the names of the refused ones in order, and the generator's KeyError is reported exactly when the listing has a malformed entry |
| `Cleaner.CleanOutcome` | final-script-using-fstring.py:48-80 | as written, `clean` exits iff the listing is not usable: a failed or unparseable listing with status 1 and 'Invalid request', an empty one with status 1 and 'Empty response'; a usable listing with a malformed entry raises that entry's KeyError inside the loop; a normal return only ever reports full success |
| `Cleaner.Clean` | final-script-using-fstring.py:48-66 | the listing's fatal exits send nothing; otherwise the deletions and `errors` are those of the loop, and the outcome is the as-written one (see the next row) |
| `Cleaner.CleanRaisesOnAnyRefusal` | final-script-using-fstring.py:58-66 | on a usable, well-formed listing `clean` raises TypeError exactly when some deletion was refused, and otherwise reports full success |
| `Cleaner.PartialCleanCrashes` | final-script-using-fstring.py:58-64 | with labels bug and docs and the deletion of docs refused, two deletions are sent and `clean` raises TypeError |
| `Cleaner.CleanCheckedOutcome` | final-script-using-fstring.py:48-66 | the corrected `clean` never raises, every exit has status 1, and a malformed listing exits with 'Invalid response' |
| `Cleaner.CleanChecked` | final-script-using-fstring.py:58-66 | the corrected clean sends one deletion per listed label, in order, collects the refused names and ends with the classification below |
| `Cleaner.CleanCheckedClassification` | final-script-using-fstring.py:58-66 | the corrected clean never raises; a failed, unparseable, empty or malformed listing exits with status 1 and 'Invalid request', 'Empty response' or 'Invalid response'; over a usable, well-formed listing it exits iff every deletion was refused, and then with status 1 and 'Labels clean failed'; it reports full success iff none was; when some but not all were refused it returns normally with exactly the report of the number refused out of the total and their names in listing order |
| `Cleaner.PartialCleanReported` | final-script-using-fstring.py:58-66 | with labels bug and docs and the deletion of docs refused, the corrected clean reports one failure out of two, docs, and returns normally |

## Left out

- HTTP transport, authentication, headers and URL building (lines 30-31, 52, 70-71) are not modelled. Each request is reduced to the service's accept/refuse verdict. The label name is inserted into the delete URL without percent-encoding, and that is not modelled either.
- Other uncaught exceptions are not modelled: connection errors from the HTTP library, a missing or unreadable input file at line 21, `open(file_name, "w")` failing at line 100 (a directory, or no permission), and `input()` reaching end of input at line 96. The model does cover the caught `HTTPError`, ValueError (line 74) and JSONDecodeError (line 24), and the escaping KeyError (lines 35, 83) and TypeError (line 60).
- JSON parsing and serialisation are not modelled. The input file and the listing are modelled only as lists of objects with string values. A top-level object, a string or non-string values are out of scope. Indentation and key order of the dumped file are not modelled.
- The form encoding of `data=label` (line 31) belongs to the HTTP library. `Create` carries the object as read.
- The overwrite prompt and `strtobool` (line 96) are a boolean input. The ValueError that `strtobool` raises on an unrecognised answer is not modelled.
- Printed text is a `Message` constructor per diagnostic, not the exact characters.
- Argument parsing and dispatch (lines 104-143) are not modelled. This includes the final 'Task completed' line.
- final.py is an earlier copy of the same workflow that does not work, and it is not part of this model. repo.py is a fixed sequence of network calls with no decision logic, and it is not part of this model.
- A malformed listing entry is evidently meant to be fatal before any write (the 'Invalid response' branch), and a partial clean is evidently meant to report and exit 0 (line 64). The code does neither. `Export` and `Clean` follow the code; `ExportChecked` and `CleanChecked` model the intended behaviour (see Findings).

## Findings

| source | as written | input that shows it | evidently intended | confidence | as-written member | corrected member |
|---|---|---|---|---|---|---|
| final-script-using-fstring.py:82-86 | the `try` only builds a lazy generator, so a missing key raises KeyError later, when it is consumed, after `open(file_name, "w")` has truncated the output file | listing `[{"name": "bug"}]` exported to a new file `labels.json` | print 'Invalid response', exit 1, file untouched | high; not executed | `Exporter.MalformedEntryEscapesTry` | `Exporter.ExportChecked` |
| final-script-using-fstring.py:58-64 | `len(existing_labels)` is applied to a generator and raises TypeError after any refused deletion; line 64 would then name an undefined `labels` | listing bug, docs; deletion of docs refused | report '1 out of 2 failed' with `['docs']` and return normally; exit 1 only when every deletion fails | high; not executed | `Cleaner.PartialCleanCrashes` | `Cleaner.CleanChecked` |
