/**
  `clean`: list the labels through `export`, then DELETE each one by name,
  collecting the names of the refused deletions.

  As written, `export` hands back a lazy generator, so a malformed listing
  entry raises KeyError in the middle of the loop, and after a refused
  deletion `len(existing_labels)` raises TypeError, so only the full-success
  report can ever be printed. `Clean` models that; `CleanChecked` is the
  evidently intended command, built on `ExportChecked`, with the three-way
  report that `import_labels` gives.
 */
module Cleaner {
  import opened Labels
  import opened Batch
  import opened Exporter

  /** The deletions the loop issues over a listing: one per label, by name, in
      order, up to the first entry the generator cannot project. */
  function DeleteRequests(stream: seq<Entry>): (reqs: seq<Request>)
    ensures |reqs| == FirstMalformed(stream)
    ensures forall i :: 0 <= i < |reqs| ==> reqs[i] == Delete(stream[i]["name"])
  {
    if stream == [] || !HasKeys(stream[0]) then []
    else [Delete(stream[0]["name"])] + DeleteRequests(stream[1..])
  }

  /** The loop of `clean` over the generator `stream`: `deleted` is the
      service's verdict on each deletion; `crash` is the KeyError the
      generator raises, if it does. */
  method DeleteEach(stream: seq<Entry>, deleted: nat -> bool)
    returns (sent: seq<Request>, errors: seq<string>, crash: Option<PyError>)
    ensures sent == DeleteRequests(stream)
    ensures errors == FailedNames(stream, deleted, FirstMalformed(stream))
    ensures crash == if FirstMalformed(stream) < |stream|
                     then Some(Project(stream[FirstMalformed(stream)]).error) else None
  {
    sent, errors, crash := [], [], None;
    var i := 0;
    while i < |stream|
      invariant i <= FirstMalformed(stream)
      invariant |sent| == i && forall j :: 0 <= j < i ==> sent[j] == Delete(stream[j]["name"])
      invariant errors == FailedNames(stream, deleted, i)
    {
      match Project(stream[i]) {
        case Err(e) =>
          crash := Some(e);
          return;
        case Ok(next) =>
          sent := sent + [Delete(next.name)];
          if !deleted(i) {
            errors := errors + [next.name];
          }
      }
      i := i + 1;
    }
  }

  /** How `clean` ends as written: the listing's fatal exits, a KeyError from
      the generator, a TypeError from `len()` once any deletion was refused,
      and otherwise the full-success report. */
  function CleanOutcome(response: Response, deleted: nat -> bool): (o: Outcome)
    ensures o.Exit? <==> !Usable(response)
    ensures !response.success || response.body.None? ==> o == Exit(1, InvalidRequest)
    ensures response.success && response.body == Some([]) ==> o == Exit(1, EmptyResponse)
    ensures Usable(response) && !WellFormed(response.body.value) ==>
      o == Raised(Materialise(response.body.value).error)
    ensures o.Done? ==> o.said == AllDeleted
  {
    var ex := Export(response, "", false, false, false);
    if !ex.Returned? then Exit(1, ex.reason)
    else
      var k := FirstMalformed(ex.stream);
      if k < |ex.stream| then Raised(Project(ex.stream[k]).error)
      else if FailedNames(ex.stream, deleted, k) != [] then Raised(TypeError)
      else Done(AllDeleted)
  }

  /** `clean`, as written. `response` is the listing `export` fetches. */
  method Clean(response: Response, deleted: nat -> bool)
    returns (sent: seq<Request>, errors: seq<string>, o: Outcome)
    ensures var ex := Export(response, "", false, false, false);
      && sent == (if ex.Returned? then DeleteRequests(ex.stream) else [])
      && errors == (if ex.Returned? then FailedNames(ex.stream, deleted, FirstMalformed(ex.stream)) else [])
    ensures o == CleanOutcome(response, deleted)
  {
    var existing := Export(response, "", false, false, false);
    if !existing.Returned? {
      return [], [], Exit(1, existing.reason);
    }
    var crash;
    sent, errors, crash := DeleteEach(existing.stream, deleted);
    if crash.Some? {
      return sent, errors, Raised(crash.value);
    }
    if errors != [] {
      // `len(existing_labels)` on a generator
      o := Raised(TypeError);
    } else {
      o := Done(AllDeleted);
    }
  }

  /** As written, `clean` never reports a partial or a total failure: over a
      usable, well-formed listing it raises TypeError exactly when some
      deletion was refused, and otherwise reports full success. */
  lemma {:induction false} CleanRaisesOnAnyRefusal(response: Response, deleted: nat -> bool)
    requires Usable(response) && WellFormed(response.body.value)
    ensures var n := |response.body.value|;
      CleanOutcome(response, deleted)
        == if exists i :: 0 <= i < n && !deleted(i) then Raised(TypeError) else Done(AllDeleted)
  {
    var stream := response.body.value;
    assert FirstMalformed(stream) == |stream|;
    NoneRefused(deleted, |stream|);
  }

  /** The listing of two labels, bug and docs. */
  function TwoLabelListing(): Response {
    Response(true, Some([map["name" := "bug", "color" := "d73a4a"], map["name" := "docs", "color" := "0075ca"]]))
  }

  /** Deleting docs is refused, deleting bug succeeds: `clean` sends two
      deletions and then raises TypeError instead of reporting one failure. */
  lemma PartialCleanCrashes()
    ensures CleanOutcome(TwoLabelListing(), i => i != 1) == Raised(TypeError)
    ensures DeleteRequests(TwoLabelListing().body.value) == [Delete("bug"), Delete("docs")]
  {
  }

  /** How the corrected `clean` ends: the listing's fatal exits, then the same
      three-way report as `import_labels`, with `len()` taken of the listing. */
  function CleanCheckedOutcome(response: Response, deleted: nat -> bool): (o: Outcome)
    ensures !o.Raised?
    ensures o.Exit? ==> o.status == 1
    ensures Usable(response) && !WellFormed(response.body.value) ==> o == Exit(1, InvalidResponse)
  {
    var ex := ExportChecked(response, "", false, false, false);
    if !ex.Returned? then Exit(1, ex.reason)
    else
      match Classify(FailedNames(ex.stream, deleted, |ex.stream|), |ex.stream|)
      case AllSucceeded => Done(AllDeleted)
      case AllFailed => Exit(1, CleanFailed)
      case SomeFailed(numErrors, numLabels, failed) => Done(FailedOutOf(numErrors, numLabels, failed))
  }

  /** `clean` over the corrected export, with `len()` of the listing and the
      report at line 64 over the listing's own length. */
  method CleanChecked(response: Response, deleted: nat -> bool)
    returns (sent: seq<Request>, errors: seq<string>, o: Outcome)
    ensures var ex := ExportChecked(response, "", false, false, false);
      && sent == (if ex.Returned? then DeleteRequests(ex.stream) else [])
      && |sent| == (if ex.Returned? then |ex.stream| else 0)
      && errors == (if ex.Returned? then FailedNames(ex.stream, deleted, |ex.stream|) else [])
    ensures o == CleanCheckedOutcome(response, deleted)
  {
    var existing := ExportChecked(response, "", false, false, false);
    if !existing.Returned? {
      return [], [], Exit(1, existing.reason);
    }
    var labels := existing.stream;
    assert FirstMalformed(labels) == |labels|;
    var crash;
    sent, errors, crash := DeleteEach(labels, deleted);
    if errors != [] {
      if |errors| == |labels| {
        return sent, errors, Exit(1, CleanFailed);
      }
      o := Done(FailedOutOf(|errors|, |labels|, errors));
    } else {
      o := Done(AllDeleted);
    }
  }

  /** The corrected `clean` never raises. It exits with status 1 on a failed,
      unparseable, empty or malformed listing, each with its own message. Over a
      usable, well-formed listing it exits (with 'Labels clean failed') exactly
      when every deletion was refused, reports full success exactly when none
      was, and otherwise returns normally with the count and the names of the
      refused deletions. */
  lemma CleanCheckedClassification(response: Response, deleted: nat -> bool)
    ensures var o := CleanCheckedOutcome(response, deleted);
      && !o.Raised?
      && (!response.success || response.body.None? ==> o == Exit(1, InvalidRequest))
      && (response.success && response.body == Some([]) ==> o == Exit(1, EmptyResponse))
      && (Usable(response) && !WellFormed(response.body.value) ==> o == Exit(1, InvalidResponse))
      && (Usable(response) && WellFormed(response.body.value) ==>
            var n := |response.body.value|;
            && (o.Exit? <==> forall i :: 0 <= i < n ==> !deleted(i))
            && (o.Exit? ==> o == Exit(1, CleanFailed))
            && (o == Done(AllDeleted) <==> forall i :: 0 <= i < n ==> deleted(i))
            && (o.Done? && o.said.FailedOutOf? ==>
                  && o.said.numErrors == FailureCount(deleted, n)
                  && 0 < o.said.numErrors < o.said.numLabels == n
                  && o.said.failed == FailedNames(response.body.value, deleted, n))
            && ((exists i :: 0 <= i < n && !deleted(i)) && (exists i :: 0 <= i < n && deleted(i)) ==>
                  o == Done(FailedOutOf(FailureCount(deleted, n), n, FailedNames(response.body.value, deleted, n)))))
  {
    if Usable(response) && WellFormed(response.body.value) {
      ClassifyBatch(response.body.value, deleted);
    }
  }

  /** The two-label listing with the deletion of docs refused: the corrected
      `clean` reports one failure, docs, out of two and returns normally. */
  lemma PartialCleanReported()
    ensures CleanCheckedOutcome(TwoLabelListing(), i => i != 1) == Done(FailedOutOf(1, 2, ["docs"]))
  {
    var stream := TwoLabelListing().body.value;
    assert WellFormed(stream);
    assert FailedNames(stream, i => i != 1, 2) == ["docs"];
  }
}
