/**
  The entities of the label-synchronisation script: the JSON objects it reads
  from an input file or from the label listing, the {name, color} labels it
  projects them to, the requests it sends to the label API, and the ways one of
  its commands can end.
 */
module Labels {

  datatype Option<+T> = None | Some(value: T)

  datatype Result<+T, +E> = Ok(value: T) | Err(error: E)

  /** A JSON object as parsed from the input file or the listing response;
      only string-valued keys are modelled. */
  type Entry = map<string, string>

  /** A label as the exporter produces it: `{"name": ..., "color": ...}`. */
  datatype Label = Label(name: string, color: string)

  /** The Python exceptions that can escape one of the commands. */
  datatype PyError =
    | KeyError(key: string)  // `label[key]` on an object that lacks the key
    | TypeError              // `len()` applied to a generator

  /** One request sent to the label API after the listing. */
  datatype Request =
    | Create(body: Entry)    // POST .../labels carrying the object read from the file
    | Delete(name: string)   // DELETE .../labels/{name}

  /** What a command prints before it returns or exits. */
  datatype Message =
    | InvalidRequest                   // 'Invalid request'
    | EmptyResponse                    // 'Empty response'
    | InvalidResponse                  // 'Invalid response'
    | Aborting                         // 'Aborting...'
    | InvalidJsonFile                  // 'File is not a valid JSON'
    | AllCreationFailed                // 'All labels creation failed'
    | AllImported                      // 'All labels imported successfully'
    | CleanFailed                      // 'Labels clean failed'
    | AllDeleted                       // 'All labels were deleted successfully'
    | FailedOutOf(numErrors: nat, numLabels: nat, failed: seq<string>)
                                       // '<n> out of <m> failed. Labels which failed: [...]'

  /** How `import_labels` or `clean` ends. */
  datatype Outcome =
    | Exit(status: nat, said: Message) // print(said); exit(status)
    | Done(said: Message)              // print(said); return normally
    | Raised(error: PyError)           // an exception escapes

  /** Both keys the projection `{"name": e["name"], "color": e["color"]}` looks up. */
  predicate HasKeys(e: Entry) {
    "name" in e && "color" in e
  }

  /** Every entry of a listing projects without a KeyError. */
  predicate WellFormed(src: seq<Entry>) {
    forall i :: 0 <= i < |src| ==> HasKeys(src[i])
  }

  /** One step of the generator: the projection of one entry. "name" is looked
      up before "color", so an entry lacking both raises KeyError('name'). */
  function Project(e: Entry): (r: Result<Label, PyError>)
    ensures r.Ok? <==> HasKeys(e)
    ensures r.Ok? ==> r.value.name == e["name"] && r.value.color == e["color"]
    ensures r.Err? ==> r.error == KeyError(if "name" in e then "color" else "name")
  {
    if "name" !in e then Err(KeyError("name"))
    else if "color" !in e then Err(KeyError("color"))
    else Ok(Label(e["name"], e["color"]))
  }

  /** The index at which consuming the generator raises, or |src| when it never does. */
  function FirstMalformed(src: seq<Entry>): (k: nat)
    ensures k <= |src|
    ensures forall j :: 0 <= j < k ==> HasKeys(src[j])
    ensures k < |src| ==> !HasKeys(src[k])
  {
    if src == [] then 0
    else if !HasKeys(src[0]) then 0
    else 1 + FirstMalformed(src[1..])
  }

  /** `list(labels)`: consumes the lazy projection over `src` in order. */
  function Materialise(src: seq<Entry>): (r: Result<seq<Label>, PyError>)
    ensures r.Ok? <==> WellFormed(src)
    ensures r.Ok? ==> |r.value| == |src|
    ensures r.Ok? ==> forall i :: 0 <= i < |src| ==>
      HasKeys(src[i]) && r.value[i] == Label(src[i]["name"], src[i]["color"])
    ensures r.Err? ==> FirstMalformed(src) < |src|
    ensures r.Err? ==> r == Err(Project(src[FirstMalformed(src)]).error)
  {
    if src == [] then Ok([])
    else match Project(src[0])
      case Err(e) => Err(e)
      case Ok(head) =>
        match Materialise(src[1..])
        case Err(e) => Err(e)
        case Ok(tail) => Ok([head] + tail)
  }

  /** The JSON object `json.dump` writes for a label. */
  function ToEntry(l: Label): Entry {
    map["name" := l.name, "color" := l.color]
  }

  /** The JSON array `json.dump` writes for a list of labels, as read back by `json.load`. */
  function Entries(ls: seq<Label>): (es: seq<Entry>)
    ensures |es| == |ls|
    ensures forall i :: 0 <= i < |ls| ==> es[i] == ToEntry(ls[i])
  {
    if ls == [] then [] else [ToEntry(ls[0])] + Entries(ls[1..])
  }

  /** A file written by the exporter projects back to the very labels it was written from. */
  lemma {:induction false} MaterialiseEntries(ls: seq<Label>)
    ensures Materialise(Entries(ls)) == Ok(ls)
  {
    var es := Entries(ls);
    forall i | 0 <= i < |es|
      ensures HasKeys(es[i]) && Label(es[i]["name"], es[i]["color"]) == ls[i]
    {
      assert es[i] == ToEntry(ls[i]);
    }
    assert WellFormed(es);
    assert Materialise(es).value == ls;
  }
}
