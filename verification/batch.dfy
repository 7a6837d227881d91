/**
  Failure accounting shared by `import_labels` and `clean`: one request per
  label, a refused request appends the label's name to `errors` and the loop
  goes on; afterwards the run is classified by comparing `len(errors)` with the
  number of labels.

  `accepts(i)` is the service's verdict on the request for the label at
  position i: true when `raise_for_status()` returns, false when it raises
  `HTTPError`.
 */
module Batch {
  import opened Labels

  /** How many of the first n requests the service refused. */
  function FailureCount(accepts: nat -> bool, n: nat): (c: nat)
    ensures c <= n
  {
    if n == 0 then 0
    else FailureCount(accepts, n - 1) + (if accepts(n - 1) then 0 else 1)
  }

  /** Every label among the first n whose request is refused has a "name" key,
      so appending its name to `errors` does not raise. */
  predicate NamedWhereRefused(items: seq<Entry>, accepts: nat -> bool, n: nat)
    requires n <= |items|
  {
    forall i :: 0 <= i < n ==> accepts(i) || "name" in items[i]
  }

  /** `errors` after the loop has handled the first n labels: the names of the
      refused ones, in input order. */
  function FailedNames(items: seq<Entry>, accepts: nat -> bool, n: nat): (names: seq<string>)
    requires n <= |items|
    requires NamedWhereRefused(items, accepts, n)
    ensures |names| == FailureCount(accepts, n)
  {
    if n == 0 then []
    else FailedNames(items, accepts, n - 1) + (if accepts(n - 1) then [] else [items[n - 1]["name"]])
  }

  /** A name is reported exactly when some refused label carries it. */
  lemma {:induction false} FailedNamesMembership(items: seq<Entry>, accepts: nat -> bool, n: nat, name: string)
    requires n <= |items|
    requires NamedWhereRefused(items, accepts, n)
    ensures name in FailedNames(items, accepts, n) <==>
      exists i :: 0 <= i < n && !accepts(i) && items[i]["name"] == name
  {
    if n > 0 {
      FailedNamesMembership(items, accepts, n - 1, name);
    }
  }

  /** Every request failed exactly when the failure count reaches the total. */
  lemma {:induction false} AllRefused(accepts: nat -> bool, n: nat)
    ensures FailureCount(accepts, n) == n <==> forall i :: 0 <= i < n ==> !accepts(i)
  {
    if n > 0 {
      AllRefused(accepts, n - 1);
      assert FailureCount(accepts, n - 1) <= n - 1;
    }
  }

  /** No request failed exactly when the failure count is zero. */
  lemma {:induction false} NoneRefused(accepts: nat -> bool, n: nat)
    ensures FailureCount(accepts, n) == 0 <==> forall i :: 0 <= i < n ==> accepts(i)
  {
    if n > 0 {
      NoneRefused(accepts, n - 1);
    }
  }

  /** The three ways a batch run is reported. */
  datatype Tally =
    | AllSucceeded                                                   // `errors` is empty
    | AllFailed                                                      // len(errors) == len(labels)
    | SomeFailed(numErrors: nat, numLabels: nat, failed: seq<string>)

  /** The decision on `errors` taken after the loop: full success when nothing
      failed, total failure when every one of the labels failed, and otherwise
      a report of how many of how many failed, and which. */
  function Classify(errors: seq<string>, numLabels: nat): (t: Tally)
    ensures t == AllSucceeded <==> errors == []
    ensures t == AllFailed <==> errors != [] && |errors| == numLabels
    ensures t.SomeFailed? ==> t.numErrors == |t.failed| && t.failed == errors && t.numLabels == numLabels
  {
    if errors == [] then AllSucceeded
    else if |errors| == numLabels then AllFailed
    else SomeFailed(|errors|, numLabels, errors)
  }

  /** Classifying the names the loop collected: total failure exactly when there
      was at least one label and every request was refused, full success exactly
      when none was (an empty batch included), and otherwise (some refused,
      some accepted) a report that counts the refused requests and lists their
      names. */
  lemma ClassifyBatch(items: seq<Entry>, accepts: nat -> bool)
    requires NamedWhereRefused(items, accepts, |items|)
    ensures var t := Classify(FailedNames(items, accepts, |items|), |items|);
      && (t == AllFailed <==> |items| > 0 && forall i :: 0 <= i < |items| ==> !accepts(i))
      && (t == AllSucceeded <==> forall i :: 0 <= i < |items| ==> accepts(i))
      && (t.SomeFailed? ==>
            && t.numErrors == FailureCount(accepts, |items|)
            && 0 < t.numErrors < t.numLabels == |items|
            && t.failed == FailedNames(items, accepts, |items|))
      && ((exists i :: 0 <= i < |items| && !accepts(i)) && (exists i :: 0 <= i < |items| && accepts(i)) ==>
            t == SomeFailed(FailureCount(accepts, |items|), |items|, FailedNames(items, accepts, |items|)))
  {
    AllRefused(accepts, |items|);
    NoneRefused(accepts, |items|);
  }
}
