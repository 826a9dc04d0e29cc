/**
 * The editor of `App.jsx`: four pieces of component state (the content record, the
 * saved issues, the selected issue id and the crop request) and the handlers that
 * change them. Browser effects are at the boundary: the chosen file's contents, the
 * clock (`Date.now()` as text, `toISOString()`), and the stored value read at startup
 * are parameters; what is written to storage is returned.
 */
module Editor {
  import opened Wrappers
  import opened Text
  import opened Content
  import opened SampleContent

  /** The aspect ratio of a closed crop request, `4 / 3`. */
  const DefaultAspect: real := 4.0 / 3.0

  /** `cropState`: whether the cropper is open, which field it will fill, the picture
      being cropped and the frame's aspect ratio. */
  datatype CropState = CropState(open: bool, targetField: Option<Field>, src: Option<string>, aspect: real)

  /** `{ open: false, targetField: null, src: null, aspect: 4 / 3 }`. */
  const ClosedCrop := CropState(false, None, None, DefaultAspect)

  /** `{ id, name, data }`: a snapshot of the record under an id and a name. */
  datatype SavedIssue = SavedIssue(id: string, name: string, data: Content)

  /** What startup finds under the storage key: nothing (or an empty string), text that
      is not JSON, or a parsed list. */
  datatype StoredValue = Missing | Unparseable | Parsed(issues: seq<SavedIssue>)

  /** The saved issues after startup: the parsed list, or the initial `[]` when nothing
      usable is stored. */
  function StartupIssues(stored: StoredValue): (r: seq<SavedIssue>)
    ensures stored.Parsed? ==> r == stored.issues
    ensures !stored.Parsed? ==> r == []
  {
    match stored
    case Parsed(issues) => issues
    case _ => []
  }

  /** `savedIssues.find(i => i.id === id)`: the first issue with that id, if any. */
  function FindIssue(issues: seq<SavedIssue>, id: string): (r: Option<SavedIssue>)
    ensures r.None? <==> forall k | 0 <= k < |issues| :: issues[k].id != id
    ensures r.Some? ==> r.value in issues && r.value.id == id
  {
    if issues == [] then None
    else if issues[0].id == id then Some(issues[0])
    else FindIssue(issues[1..], id)
  }

  /** `data.issueName?.trim() || 'Issue ' + time`: the trimmed name when it has a visible
      character, otherwise a name made from the save time. */
  function SaveName(issueName: string, isoTime: string): (r: string)
    ensures HasVisible(issueName) ==> r == Trim(issueName)
    ensures !HasVisible(issueName) ==> r == "Issue " + isoTime
    ensures r != [] && !IsWhitespace(r[0])
  {
    TrimNonEmptyIff(issueName);
    var t := Trim(issueName);
    if t != "" then t else "Issue " + isoTime
  }

  /** The first issue with an id sits at an index before which no issue has that id. */
  lemma {:induction false} FindIssueFirst(issues: seq<SavedIssue>, id: string)
    requires FindIssue(issues, id).Some?
    ensures exists k | 0 <= k < |issues| ::
      issues[k] == FindIssue(issues, id).value && forall j | 0 <= j < k :: issues[j].id != id
    decreases |issues|
  {
    if issues[0].id != id {
      FindIssueFirst(issues[1..], id);
      var k :| 0 <= k < |issues[1..]| && issues[1..][k] == FindIssue(issues[1..], id).value
        && forall j | 0 <= j < k :: issues[1..][j].id != id;
      assert issues[k + 1] == FindIssue(issues, id).value;
      assert forall j | 1 <= j < k + 1 :: issues[j].id == issues[1..][j - 1].id;
    }
  }

  /** Appending an issue does not change what an id already in the list finds, and an id
      not yet in the list finds the appended issue when it carries that id. */
  lemma {:induction false} FindAfterAppend(issues: seq<SavedIssue>, x: SavedIssue, id: string)
    ensures FindIssue(issues + [x], id) ==
      if FindIssue(issues, id).Some? then FindIssue(issues, id)
      else if x.id == id then Some(x) else None
    decreases |issues|
  {
    if issues == [] {
      assert issues + [x] == [x];
      assert [x][1..] == [];
    } else {
      assert (issues + [x])[1..] == issues[1..] + [x];
      FindAfterAppend(issues[1..], x, id);
    }
  }

  /** A save under a fresh id can be loaded back: the id finds the snapshot just saved. */
  lemma SaveThenFind(issues: seq<SavedIssue>, x: SavedIssue)
    requires forall k | 0 <= k < |issues| :: issues[k].id != x.id
    ensures FindIssue(issues + [x], x.id) == Some(x)
  {
    FindAfterAppend(issues, x, x.id);
  }

  /** Two saves with the same id (two saves within one millisecond): loading that id
      gives the earlier snapshot, and the later one cannot be loaded by id. */
  lemma DuplicateIdShadowed(issues: seq<SavedIssue>, x: SavedIssue)
    requires exists k | 0 <= k < |issues| :: issues[k].id == x.id
    ensures FindIssue(issues + [x], x.id) == FindIssue(issues, x.id)
    ensures FindIssue(issues + [x], x.id).Some?
  {
    FindAfterAppend(issues, x, x.id);
  }

  /** The component's state and its handlers. */
  class Editor {
    var data: Content
    var savedIssues: seq<SavedIssue>
    var selectedIssueId: string
    var cropState: CropState

    /** A crop request is either closed and blank, or open with a target and a picture. */
    predicate Valid()
      reads this
    {
      || cropState == ClosedCrop
      || (cropState.open && cropState.targetField.Some? && cropState.src.Some?)
    }

    /** The first render followed by the startup effect: the sample issue, no selection,
        no crop request, and the stored list when it parses. */
    constructor(stored: StoredValue)
      ensures Valid()
      ensures data == DefaultContent && selectedIssueId == "" && cropState == ClosedCrop
      ensures savedIssues == StartupIssues(stored)
      ensures !stored.Parsed? ==> savedIssues == []
    {
      data := DefaultContent;
      savedIssues := StartupIssues(stored);
      selectedIssueId := "";
      cropState := ClosedCrop;
    }

    /** `updateField(field, value)` for a text field: that field takes the value. */
    method UpdateField(f: Field, v: string)
      requires Valid()
      modifies this
      ensures Valid()
      ensures data == old(data).With(f, v)
      ensures data.Get(f) == v && forall g | g != f :: data.Get(g) == old(data).Get(g)
      ensures savedIssues == old(savedIssues) && selectedIssueId == old(selectedIssueId)
      ensures cropState == old(cropState)
    {
      data := data.With(f, v);
    }

    /** `updateField('backgroundOpacity', x)` from the opacity slider. */
    method UpdateBackgroundOpacity(x: real)
      requires Valid()
      modifies this
      ensures Valid()
      ensures data == old(data).(backgroundOpacity := Some(x))
      ensures forall g :: data.Get(g) == old(data).Get(g)
      ensures savedIssues == old(savedIssues) && selectedIssueId == old(selectedIssueId)
      ensures cropState == old(cropState)
    {
      data := data.(backgroundOpacity := Some(x));
    }

    /** `updateQuickLink(idx, field, value)`: copies the list and rewrites one field of
        one slot; the list must exist, as the spread `[...prev.quickLinks]` demands, and
        the slot must lie within it or just past its end. */
    method UpdateQuickLink(idx: nat, f: LinkField, v: string)
      requires Valid() && data.quickLinks.Some? && idx <= |data.quickLinks.value|
      modifies this
      ensures Valid()
      ensures data == old(data).(quickLinks := Some(SetSlot(old(data).quickLinks.value, idx, f, v)))
      ensures forall g :: data.Get(g) == old(data).Get(g)
      ensures idx < |old(data).quickLinks.value| ==> |data.quickLinks.value| == |old(data).quickLinks.value|
      ensures savedIssues == old(savedIssues) && selectedIssueId == old(selectedIssueId)
      ensures cropState == old(cropState)
    {
      var next := data.quickLinks.value;
      next := SetSlot(next, idx, f, v);
      data := data.(quickLinks := Some(next));
    }

    /** `openCropperFor(field, aspect)` once the file picker has closed: with a chosen
        file the cropper opens on its contents, without one nothing changes. */
    method OpenCropperFor(f: Field, aspect: real, file: Option<string>)
      requires Valid()
      modifies this
      ensures Valid()
      ensures file.None? ==> cropState == old(cropState)
      ensures file.Some? ==> cropState == CropState(true, Some(f), Some(file.value), aspect)
      ensures data == old(data) && savedIssues == old(savedIssues)
      ensures selectedIssueId == old(selectedIssueId)
    {
      if file.Some? {
        cropState := CropState(true, Some(f), Some(file.value), aspect);
      }
    }

    /** `handleCropApply(dataUrl)`: the cropped picture goes into the target field, if
        there is one, and the request is closed either way. */
    method CropApply(dataUrl: string)
      requires Valid()
      modifies this
      ensures Valid()
      ensures cropState == ClosedCrop
      ensures old(cropState).targetField.Some? ==>
        data == old(data).With(old(cropState).targetField.value, dataUrl)
      ensures old(cropState).targetField.None? ==> data == old(data)
      ensures old(cropState).open ==> data.Get(old(cropState).targetField.value) == dataUrl
      ensures savedIssues == old(savedIssues) && selectedIssueId == old(selectedIssueId)
    {
      if cropState.targetField.Some? {
        data := data.With(cropState.targetField.value, dataUrl);
      }
      cropState := ClosedCrop;
    }

    /** `handleCropCancel()`: the request is closed and the record is untouched. */
    method CropCancel()
      requires Valid()
      modifies this
      ensures Valid()
      ensures cropState == ClosedCrop
      ensures data == old(data) && savedIssues == old(savedIssues)
      ensures selectedIssueId == old(selectedIssueId)
    {
      cropState := ClosedCrop;
    }

    /** `handleSaveIssue()`: appends one snapshot of the record and writes the whole new
        list to storage. `writable` says whether `localStorage.setItem` succeeds; when it
        throws (a full quota), the append already requested still happens, but nothing is
        stored and the new issue is not selected. */
    method SaveIssue(now: string, isoTime: string, writable: bool) returns (persisted: Option<seq<SavedIssue>>)
      requires Valid()
      modifies this
      ensures Valid()
      ensures savedIssues == old(savedIssues) + [SavedIssue(now, SaveName(old(data).issueName, isoTime), old(data))]
      ensures |savedIssues| == |old(savedIssues)| + 1 && savedIssues[..|old(savedIssues)|] == old(savedIssues)
      ensures writable ==> persisted == Some(savedIssues) && selectedIssueId == now
      ensures !writable ==> persisted == None && selectedIssueId == old(selectedIssueId)
      ensures data == old(data) && cropState == old(cropState)
    {
      var name := SaveName(data.issueName, isoTime);
      var newIssue := SavedIssue(now, name, data);
      var updated := savedIssues + [newIssue];
      savedIssues := updated;
      if writable {
        persisted := Some(updated);
        selectedIssueId := now;
      } else {
        persisted := None;
      }
    }

    /** `handleLoadIssue(id)`: selects the id and, when some issue has it, restores the
        first such issue's record. */
    method LoadIssue(id: string)
      requires Valid()
      modifies this
      ensures Valid()
      ensures selectedIssueId == id
      ensures FindIssue(savedIssues, id).Some? ==> data == FindIssue(savedIssues, id).value.data
      ensures FindIssue(savedIssues, id).None? ==> data == old(data)
      ensures savedIssues == old(savedIssues) && cropState == old(cropState)
    {
      selectedIssueId := id;
      var found := FindIssue(savedIssues, id);
      if found.Some? {
        data := found.value.data;
      }
    }
  }
}
