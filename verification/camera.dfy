/** The camera scan screen (src/screens/camera/CameraScanScreen.tsx): the
    flash and lens toggles, editing and selecting the detected words, creating
    a list for them and sending the selected words to a list. Camera,
    gallery and API answers are inputs. */
module Camera {
  import opened Base
  import opened Ocr

  datatype FlashMode = FlashOff | FlashOn
  datatype CameraType = Back | Front

  function ToggleFlash(m: FlashMode): (r: FlashMode)
    ensures r != m
  {
    if m == FlashOff then FlashOn else FlashOff
  }

  function ToggleCameraType(t: CameraType): (r: CameraType)
    ensures r != t
  {
    if t == Back then Front else Back
  }

  /** Both toggles undo themselves. */
  lemma TogglesAreInvolutions(m: FlashMode, t: CameraType)
    ensures ToggleFlash(ToggleFlash(m)) == m
    ensures ToggleCameraType(ToggleCameraType(t)) == t
  {
  }

  // ---------------------------------------------------------------------------
  // Detected words

  /** `toggleWordSelection`: the words with that id change their selection, nothing else changes. */
  function ToggleSelection(words: seq<DetectedWord>, id: string): (r: seq<DetectedWord>)
    ensures |r| == |words|
    ensures forall i :: 0 <= i < |words| && words[i].id == id ==>
      r[i] == words[i].(selected := !words[i].selected)
    ensures forall i :: 0 <= i < |words| && words[i].id != id ==> r[i] == words[i]
  {
    if |words| == 0 then []
    else
      var w := words[0];
      [if w.id == id then w.(selected := !w.selected) else w] + ToggleSelection(words[1..], id)
  }

  /** Toggling the same word twice restores the list. */
  lemma ToggleTwice(words: seq<DetectedWord>, id: string)
    ensures ToggleSelection(ToggleSelection(words, id), id) == words
  {
    var r := ToggleSelection(ToggleSelection(words, id), id);
    assert forall i :: 0 <= i < |words| ==> r[i] == words[i];
  }

  /** `updateWord`: nothing without a word being edited; otherwise the entries
      with its id become the edited word. */
  function UpdateWord(words: seq<DetectedWord>, current: Option<DetectedWord>): (r: seq<DetectedWord>)
    ensures current.None? ==> r == words
    ensures |r| == |words|
    ensures current.Some? ==>
      && (forall i :: 0 <= i < |words| && words[i].id == current.value.id ==> r[i] == current.value)
      && (forall i :: 0 <= i < |words| && words[i].id != current.value.id ==> r[i] == words[i])
  {
    match current
    case None => words
    case Some(c) => seq(|words|, i requires 0 <= i < |words| => if words[i].id == c.id then c else words[i])
  }

  /** An edit keeps the selection of every other word and the set of ids. */
  lemma UpdateKeepsIds(words: seq<DetectedWord>, c: DetectedWord)
    ensures var r := UpdateWord(words, Some(c));
      forall i :: 0 <= i < |words| ==> r[i].id == words[i].id
  {
  }

  predicate IsSelected(w: DetectedWord) { w.selected }

  // ---------------------------------------------------------------------------
  // The screen

  datatype ListRef = ListRef(id: string, name: string)

  /** A word as it is sent to `addBulkWords`. */
  datatype NewWord = NewWord(value: string, meaning: string, context: string)

  /** The request `createNewList` sends. */
  datatype ListRequest = ListRequest(name: string, description: string, language: string)

  datatype Screen = Screen(
    flash: FlashMode,
    cameraType: CameraType,
    capturedImage: Option<string>,
    detected: seq<DetectedWord>,
    selectedListId: Option<string>,
    userLists: seq<ListRef>,
    newListName: string,
    showListDialog: bool,
    showNewListDialog: bool,
    alert: Option<string>)

  const Initial := Screen(FlashOff, Back, None, [], None, [], "", false, false, None)

  const ListNameMissing := "Lütfen liste adı girin."
  const ListCreateFailed := "Liste oluşturulurken bir hata oluştu."
  const NothingSelected := "Lütfen en az bir kelime seçin."
  const AddFailed := "Kelimeler listeye eklenirken bir hata oluştu."
  const ScannedDescription := "Kamera ile taranan kelimeler"

  /** `resetCamera`. */
  function Reset(s: Screen): (r: Screen)
    ensures r.capturedImage == None && r.detected == []
    ensures r.selectedListId == s.selectedListId && r.userLists == s.userLists
  {
    s.(capturedImage := None, detected := [])
  }

  /** The list `createNewList` asks for, or none when the name is blank. */
  function NewListRequest(s: Screen): (r: Option<ListRequest>)
    ensures Blank(s.newListName) <==> r.None?
    ensures r.Some? ==> r.value == ListRequest(s.newListName, ScannedDescription, "en")
  {
    if Blank(s.newListName) then None else Some(ListRequest(s.newListName, ScannedDescription, "en"))
  }

  /** `createNewList` with the API's answer: a blank name only warns; a new
      list is appended and selected, and the name field and dialog are cleared. */
  function CreateNewList(s: Screen, answer: Result<ListRef>): (r: Screen)
    ensures Blank(s.newListName) ==> r == s.(alert := Some(ListNameMissing))
    ensures !Blank(s.newListName) && answer.Ok? ==>
      && r.userLists == s.userLists + [answer.value]
      && r.selectedListId == Some(answer.value.id)
      && r.newListName == "" && !r.showNewListDialog
      && r.detected == s.detected
    ensures !Blank(s.newListName) && answer.Err? ==> r == s.(alert := Some(ListCreateFailed))
  {
    if Blank(s.newListName) then s.(alert := Some(ListNameMissing))
    else
      match answer
      case Ok(l) =>
        s.(userLists := s.userLists + [l], selectedListId := Some(l.id), newListName := "",
           showNewListDialog := false, alert := Some("\"" + l.name + "\" listesi oluşturuldu."))
      case Err(_) => s.(alert := Some(ListCreateFailed))
  }

  /** What `addWordsToList` decides to do. */
  datatype AddAction = OpenListDialog | WarnNothingSelected | Send(listId: string, words: seq<NewWord>)

  function AsNewWord(w: DetectedWord): NewWord {
    NewWord(w.value, w.meaning, "")
  }

  function AsNewWords(ws: seq<DetectedWord>): (r: seq<NewWord>)
    ensures |r| == |ws| && forall i :: 0 <= i < |ws| ==> r[i] == AsNewWord(ws[i])
  {
    if |ws| == 0 then [] else [AsNewWord(ws[0])] + AsNewWords(ws[1..])
  }

  /** Without a selected list the list dialog opens; with nothing selected a
      warning; otherwise exactly the selected words, in order, with an empty context. */
  function AddAct(s: Screen): (r: AddAction)
    ensures !Truthy(s.selectedListId) <==> r == OpenListDialog
    ensures Truthy(s.selectedListId) && (forall i :: 0 <= i < |s.detected| ==> !s.detected[i].selected) ==>
      r == WarnNothingSelected
    ensures r.Send? ==>
      && r.listId == s.selectedListId.value
      && r.words == AsNewWords(Filter(s.detected, IsSelected))
      && |r.words| > 0
      && forall i :: 0 <= i < |r.words| ==> r.words[i].context == ""
  {
    if !Truthy(s.selectedListId) then OpenListDialog
    else
      var chosen := Filter(s.detected, IsSelected);
      if |chosen| == 0 then WarnNothingSelected
      else Send(s.selectedListId.value, AsNewWords(chosen))
  }

  /** A send happens exactly when a list is selected and some word is selected. */
  lemma SendIff(s: Screen)
    ensures AddAct(s).Send? <==> Truthy(s.selectedListId) && exists i :: 0 <= i < |s.detected| && s.detected[i].selected
  {
    if Truthy(s.selectedListId) && exists i :: 0 <= i < |s.detected| && s.detected[i].selected {
      var i :| 0 <= i < |s.detected| && s.detected[i].selected;
      assert s.detected[i] in Filter(s.detected, IsSelected);
    }
  }

  /** `addWordsToList` on the screen, with whether the bulk add succeeded. */
  function AddWordsToList(s: Screen, succeeded: bool): (r: Screen)
    ensures AddAct(s) == OpenListDialog ==> r == s.(showListDialog := true)
    ensures AddAct(s) == WarnNothingSelected ==> r == s.(alert := Some(NothingSelected))
    ensures AddAct(s).Send? && !succeeded ==> r == s.(alert := Some(AddFailed))
    ensures AddAct(s).Send? && succeeded ==>
      r == s.(alert := Some(NatToString(|AddAct(s).words|) + " kelime listeye eklendi."))
  {
    match AddAct(s)
    case OpenListDialog => s.(showListDialog := true)
    case WarnNothingSelected => s.(alert := Some(NothingSelected))
    case Send(_, words) =>
      if succeeded then s.(alert := Some(NatToString(|words|) + " kelime listeye eklendi."))
      else s.(alert := Some(AddFailed))
  }

  /** `selectList`. */
  function SelectList(s: Screen, id: string): (r: Screen)
    ensures r.selectedListId == Some(id) && !r.showListDialog
  {
    s.(selectedListId := Some(id), showListDialog := false)
  }
}
