/** What the three submission wizards share: uploaded documents, ISO date
    handling and the navigation row. */
module Wizard {
  import opened Wrappers

  /** A browser `File` chosen in a file input. */
  datatype Doc = Doc(name: string)

  /** What a date picker hands to its `onChange`: a date (milliseconds
      since the epoch), or the `Invalid Date` it produces for a partly typed
      value. Both are objects, so both are truthy. */
  datatype PickedDate = Valid(ms: int) | InvalidDate

  /** `date.toISOString()`, where `iso` formats a valid date; on an invalid
      date it throws a RangeError, here `None`. */
  function ToIso(iso: int -> string, d: PickedDate): (r: Option<string>)
    ensures r.Some? <==> d.Valid?
    ensures d.Valid? ==> r.value == iso(d.ms)
  {
    if d.Valid? then Some(iso(d.ms)) else None
  }

  /** `iso.split('T')[0]`: the text before the first 'T'. */
  function DatePart(iso: string): (r: string)
    ensures r <= iso
    ensures forall i :: 0 <= i < |r| ==> r[i] != 'T'
    ensures |r| < |iso| ==> iso[|r|] == 'T'
  {
    if iso == [] || iso[0] == 'T' then ""
    else
      var rest := DatePart(iso[1..]);
      assert iso == [iso[0]] + iso[1..];
      [iso[0]] + rest
  }

  /** The two buttons of the navigation row. */
  datatype Press = Primary | Back

  /** How a press moves a wizard whose last (confirmation) step is `last`:
      no buttons at `last`; Back only after the first step; the primary
      button does nothing while disabled, submits at `last - 1` (advancing
      only when the server accepts) and advances everywhere else.
      `submitted` says whether the submit handler ran. */
  datatype Move = Move(step: int, submitted: bool)

  function Navigate(step: int, last: int, press: Press, enabled: bool, accepted: bool): (m: Move)
    requires 1 <= last && 0 <= step <= last
    ensures 0 <= m.step <= last
    ensures step == last ==> m == Move(step, false)
    ensures m.submitted <==> step == last - 1 && press == Primary && enabled
    ensures m.submitted ==> m.step == (if accepted then last else step)
    ensures press == Primary && !enabled ==> m.step == step
    ensures press == Back ==> m.step == (if 0 < step < last then step - 1 else step)
    ensures press == Primary && step < last - 1 ==> m.step == (if enabled then step + 1 else step)
  {
    if step == last then Move(step, false)
    else
      match press
      case Back => Move(if step != 0 then step - 1 else step, false)
      case Primary =>
        if !enabled then Move(step, false)
        else if step == last - 1 then Move(if accepted then step + 1 else step, true)
        else Move(step + 1, false)
  }

  /** A FormData entry: text, or a file. `append` turns every value that is
      not a file into its string, so a null document becomes "null". */
  datatype Entry = Text(s: string) | Blob(doc: Doc)

  type FormData = seq<(string, Entry)>

  function DocEntry(d: Option<Doc>): Entry {
    if d.Some? then Blob(d.value) else Text("null")
  }

  /** The own enumerable property names of a FormData object: there are
      none, its entries being reachable only through `entries()`. */
  function OwnKeys(fd: FormData): (keys: seq<string>)
    ensures |keys| == 0
  {
    []
  }

  /** One `append(key, folderData[key])` per key, where `folderData` is a
      FormData: property access on it reads `undefined` for every key. */
  function AppendEach(keys: seq<string>): (body: FormData)
    ensures |body| == |keys|
    ensures forall i :: 0 <= i < |keys| ==> body[i] == (keys[i], Text("undefined"))
  {
    seq(|keys|, i requires 0 <= i < |keys| => (keys[i], Text("undefined")))
  }

  /** `createFolder` as written: a new FormData built from the own keys of
      its argument. */
  function CreateFolderAsWritten(fd: FormData): FormData {
    AppendEach(OwnKeys(fd))
  }

  /** Handed a FormData, `createFolder` posts an empty body: whatever the
      wizard appended, the server receives no field at all. */
  lemma CreateFolderSendsNothing(fd: FormData)
    ensures CreateFolderAsWritten(fd) == []
    ensures fd != [] ==> CreateFolderAsWritten(fd) != fd
  {
  }

  /** `createFolder` as evidently intended: every entry of the FormData it
      is handed, copied in order with `entries()`. */
  function CreateFolder(fd: FormData): (body: FormData)
    ensures body == fd
  {
    if fd == [] then []
    else
      assert fd == [fd[0]] + fd[1..];
      [fd[0]] + CreateFolder(fd[1..])
  }
}
