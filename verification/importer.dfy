/**
  `import_labels`: read a list of label objects from a file, POST each one,
  collect the names of the refused ones, then report full success, a partial
  failure, or a total failure (exit status 1).
 */
module Importer {
  import opened Labels
  import opened Batch

  /** Position of the first label whose create request is refused and which has
      no "name" key: `errors.append(label['name'])` raises KeyError there.
      |items| when there is no such label. Searching starts at `from`. */
  function FirstNameless(items: seq<Entry>, accepts: nat -> bool, from: nat): (k: nat)
    requires from <= |items|
    decreases |items| - from
    ensures from <= k <= |items|
    ensures forall j :: from <= j < k ==> accepts(j) || "name" in items[j]
    ensures k < |items| ==> !accepts(k) && "name" !in items[k]
  {
    if from == |items| then from
    else if !accepts(from) && "name" !in items[from] then from
    else FirstNameless(items, accepts, from + 1)
  }

  /** How `import_labels` ends, given the parsed input file (None when
      `json.load` raises JSONDecodeError). */
  function ImportOutcome(file: Option<seq<Entry>>, accepts: nat -> bool): (o: Outcome)
    ensures file.None? ==> o == Exit(1, InvalidJsonFile)
    ensures o.Raised? <==> file.Some? && FirstNameless(file.value, accepts, 0) < |file.value|
    ensures o.Raised? ==> o.error == KeyError("name")
    ensures o.Exit? ==> o.status == 1
    ensures o.Done? ==> o.said == AllImported || o.said.FailedOutOf?
  {
    match file
    case None => Exit(1, InvalidJsonFile)
    case Some(items) =>
      if FirstNameless(items, accepts, 0) < |items| then Raised(KeyError("name"))
      else
        match Classify(FailedNames(items, accepts, |items|), |items|)
        case AllSucceeded => Done(AllImported)
        case AllFailed => Exit(1, AllCreationFailed)
        case SomeFailed(numErrors, numLabels, failed) => Done(FailedOutOf(numErrors, numLabels, failed))
  }

  /** `import_labels`. `file` is the parsed input file, `accepts` the service's
      verdict on each create request; `sent` lists the requests issued and
      `errors` the local list of failed names when the function ends. */
  method ImportLabels(file: Option<seq<Entry>>, accepts: nat -> bool)
    returns (sent: seq<Request>, errors: seq<string>, o: Outcome)
    // a file that is not valid JSON exits before any request
    ensures file.None? ==> sent == [] && errors == [] && o == Exit(1, InvalidJsonFile)
    // one create per label, in input order, carrying the object read; only a
    // refused label without a name stops the loop, after its own request
    ensures file.Some? ==>
      var items := file.value;
      var k := FirstNameless(items, accepts, 0);
      && |sent| == (if k < |items| then k + 1 else |items|)
      && (forall i :: 0 <= i < |sent| ==> sent[i] == Create(items[i]))
      && errors == FailedNames(items, accepts, k)
    ensures o == ImportOutcome(file, accepts)
  {
    if file.None? {
      return [], [], Exit(1, InvalidJsonFile);
    }
    var labels := file.value;
    sent, errors := [], [];
    var i := 0;
    while i < |labels|
      invariant i <= FirstNameless(labels, accepts, 0)
      invariant |sent| == i && forall j :: 0 <= j < i ==> sent[j] == Create(labels[j])
      invariant errors == FailedNames(labels, accepts, i)
    {
      sent := sent + [Create(labels[i])];
      if !accepts(i) {
        if "name" !in labels[i] {
          return sent, errors, Raised(KeyError("name"));
        }
        errors := errors + [labels[i]["name"]];
      }
      i := i + 1;
    }
    if errors != [] {
      if |errors| == |labels| {
        return sent, errors, Exit(1, AllCreationFailed);
      }
      o := Done(FailedOutOf(|errors|, |labels|, errors));
    } else {
      o := Done(AllImported);
    }
  }

  /** With every refused label named, `import_labels` exits with status 1
      exactly when the file held at least one label and every create was
      refused; it reports full success exactly when none was (an empty list
      included); when some but not all were refused it returns normally after
      reporting how many of the labels failed and which. */
  lemma ImportClassification(items: seq<Entry>, accepts: nat -> bool)
    requires NamedWhereRefused(items, accepts, |items|)
    ensures var o := ImportOutcome(Some(items), accepts);
      && (o.Exit? <==> |items| > 0 && forall i :: 0 <= i < |items| ==> !accepts(i))
      && (o.Exit? ==> o == Exit(1, AllCreationFailed))
      && (o == Done(AllImported) <==> forall i :: 0 <= i < |items| ==> accepts(i))
      && !o.Raised?
      && (o.Done? && o.said.FailedOutOf? ==>
            && o.said.numErrors == FailureCount(accepts, |items|)
            && 0 < o.said.numErrors < o.said.numLabels == |items|
            && o.said.failed == FailedNames(items, accepts, |items|))
      && ((exists i :: 0 <= i < |items| && !accepts(i)) && (exists i :: 0 <= i < |items| && accepts(i)) ==>
            o == Done(FailedOutOf(FailureCount(accepts, |items|), |items|, FailedNames(items, accepts, |items|))))
  {
    assert FirstNameless(items, accepts, 0) == |items|;
    ClassifyBatch(items, accepts);
  }

  /** In a file written by `export` every label has a name, so the import loop
      never raises and runs over the whole list. */
  lemma ExportedFileImportsEveryLabel(ls: seq<Label>, accepts: nat -> bool)
    ensures NamedWhereRefused(Entries(ls), accepts, |ls|)
    ensures FirstNameless(Entries(ls), accepts, 0) == |ls|
  {
    var es := Entries(ls);
    assert forall i :: 0 <= i < |es| ==> "name" in es[i];
  }

  /** Importing a file written by `export`: one create per exported label, in
      order, carrying exactly its name and color; `errors` lists the refused
      ones and the import ends without an exception. */
  method ImportExportedFile(ls: seq<Label>, accepts: nat -> bool)
    returns (sent: seq<Request>, errors: seq<string>, o: Outcome)
    ensures |sent| == |ls|
    ensures forall i :: 0 <= i < |ls| ==> sent[i] == Create(ToEntry(ls[i]))
    ensures errors == FailedNames(Entries(ls), accepts, |ls|)
    ensures !o.Raised?
  {
    ExportedFileImportsEveryLabel(ls, accepts);
    ImportClassification(Entries(ls), accepts);
    sent, errors, o := ImportLabels(Some(Entries(ls)), accepts);
  }
}
