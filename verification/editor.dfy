/**
 * The page editor (src/components/Editor.tsx): the new-page buffer and its
 * add guard, the edit modal's buffer, drag-and-drop reordering, and the
 * "generating" marker around AI image generation.
 *
 * The component's props (the page list, the title, the optional update and
 * reorder callbacks) are constants of one `Editor` object; its React state
 * hooks are fields. What the component hands to its parent through callbacks
 * is appended to `calls`, browser alerts to `alerts`, and the requests it sends
 * to the external AI client to `aiCalls`.
 */
module Editor {
  import opened Types
  import opened Crypto

  // ---------------------------------------------------------------------------
  // The reorder a drop performs

  /** `array.splice(i, 1)`: the list without its element at `i`. */
  function RemoveAt<T>(s: seq<T>, i: nat): (r: seq<T>)
    requires i < |s|
    ensures |r| == |s| - 1
    ensures forall k :: 0 <= k < |r| ==> r[k] == if k < i then s[k] else s[k + 1]
  {
    s[..i] + s[i + 1..]
  }

  /** `array.splice(i, 0, x)`: `x` inserted so that it ends up at index `i`. */
  function InsertAt<T>(s: seq<T>, i: nat, x: T): (r: seq<T>)
    requires i <= |s|
    ensures |r| == |s| + 1
    ensures forall k :: 0 <= k < |r| ==> r[k] == if k < i then s[k] else if k == i then x else s[k - 1]
  {
    s[..i] + [x] + s[i..]
  }

  /**
   * Where every element lands when the element at `from` is moved to `to`:
   * the moved element sits at `to`, the ones it passed over shift by one
   * toward `from`, the rest stay put.
   */
  function Moved<T>(s: seq<T>, from: nat, to: nat): (r: seq<T>)
    requires from < |s| && to < |s|
  {
    seq(|s|, k requires 0 <= k < |s| =>
      if k == to then s[from]
      else if from < to && from <= k < to then s[k + 1]
      else if to < from && to < k <= from then s[k - 1]
      else s[k])
  }

  /** The two splices of the drop handler move the element from `from` to `to`. */
  lemma SpliceMoveIsMoved<T>(s: seq<T>, from: nat, to: nat)
    requires from < |s| && to < |s|
    ensures InsertAt(RemoveAt(s, from), to, s[from]) == Moved(s, from, to)
  {
    var r := InsertAt(RemoveAt(s, from), to, s[from]);
    var m := Moved(s, from, to);
    assert |r| == |m|;
    forall k | 0 <= k < |s| ensures r[k] == m[k] {
    }
  }

  /** Taking an element out and putting it back elsewhere keeps the multiset. */
  lemma SplicePreservesMultiset<T>(s: seq<T>, from: nat, to: nat)
    requires from < |s| && to < |s|
    ensures multiset(InsertAt(RemoveAt(s, from), to, s[from])) == multiset(s)
  {
    var x := s[from];
    var rest := s[..from] + s[from + 1..];
    assert s == s[..from] + [x] + s[from + 1..];
    assert multiset(s) == multiset(rest) + multiset{x};
    assert rest == rest[..to] + rest[to..];
    assert multiset(rest[..to] + [x] + rest[to..]) == multiset(rest) + multiset{x};
  }

  /** A drop is a permutation: the same pages, each as often as before. */
  lemma MovedIsPermutation<T>(s: seq<T>, from: nat, to: nat)
    requires from < |s| && to < |s|
    ensures |Moved(s, from, to)| == |s|
    ensures multiset(Moved(s, from, to)) == multiset(s)
  {
    SpliceMoveIsMoved(s, from, to);
    SplicePreservesMultiset(s, from, to);
  }

  /**
   * The dragged page lands at the drop index, and every page outside the
   * stretch between the two indices keeps its exact position.
   */
  lemma MovedPositions<T>(s: seq<T>, from: nat, to: nat)
    requires from < |s| && to < |s|
    ensures |Moved(s, from, to)| == |s|
    ensures Moved(s, from, to)[to] == s[from]
    ensures forall k :: 0 <= k < |s| && ((k < from && k < to) || (k > from && k > to)) ==> Moved(s, from, to)[k] == s[k]
  {
  }

  /**
   * All the other pages keep their relative order: taking the moved page
   * out of the result leaves what taking it out of the input leaves.
   */
  lemma MovedKeepsOrder<T>(s: seq<T>, from: nat, to: nat)
    requires from < |s| && to < |s|
    ensures |Moved(s, from, to)| == |s|
    ensures RemoveAt(Moved(s, from, to), to) == RemoveAt(s, from)
  {
    var m := Moved(s, from, to);
    var a, b := RemoveAt(m, to), RemoveAt(s, from);
    forall k | 0 <= k < |a| ensures a[k] == b[k] {
    }
  }

  /** Dragging the page back from `to` to `from` undoes the move. */
  lemma MovedInverse<T>(s: seq<T>, from: nat, to: nat)
    requires from < |s| && to < |s|
    ensures |Moved(s, from, to)| == |s|
    ensures Moved(Moved(s, from, to), to, from) == s
  {
    var m := Moved(s, from, to);
    var back := Moved(m, to, from);
    forall k | 0 <= k < |s| ensures back[k] == s[k] {
    }
  }

  // ---------------------------------------------------------------------------
  // What the editor sends out

  /** The parent callbacks the editor calls. */
  datatype ParentCall =
    | AddPage(image: Option<string>, imageScale: real, text: string)
      /** `onUpdatePage(id, {text, image, imageScale})` from the edit modal. */
    | UpdatePage(id: string, text: string, image: Option<string>, imageScale: real)
      /** `onUpdatePage(id, {image, imageScale})` after generating an image. */
    | UpdatePageImage(id: string, generated: string, imageScale: real)
    | ReorderPages(pages: seq<StoryPage>)

  /** The two calls into the external AI client. */
  datatype AiRequest =
    | PromptRequest(apiKey: string, title: string, pageText: string, history: seq<string>)
    | ImageRequest(apiKey: string, prompt: string)

  /** A request together with the generation marker at the moment it was sent. */
  datatype AiCall = AiCall(marker: Option<string>, request: AiRequest)

  /**
   * How the two AI calls turn out: the prompt call fails, or it returns a
   * prompt and the image call fails, or both succeed.
   */
  datatype AiOutcome = PromptFailed | ImageFailed(prompt: string) | Generated(prompt: string, image: string)

  /** The marker used while generating for the page that is not yet added. */
  const NewPageMarker: string := "new"
  /** The title sent to the prompt call when the book has none. */
  const FallbackTitle: string := "Children's storybook"

  const AlertNoApiKey: string := "APIキーが設定されていません。ホーム画面で設定してください。"
  const AlertGenerationFailed: string := "画像生成に失敗しました。APIキーを確認してください。"
  const AlertNoText: string := "テキストを入力してから画像を生成してください。"

  function PromptTitle(title: string): (r: string)
    ensures r != ""
    ensures title != "" ==> r == title
  {
    if title == "" then FallbackTitle else title
  }

  /**
   * The requests one generation attempt sends, all while `marker` is set: the
   * prompt call, then the image call unless the prompt call failed.
   */
  function AttemptCalls(marker: Option<string>, apiKey: string, title: string, text: string, outcome: AiOutcome): (r: seq<AiCall>)
    ensures 1 <= |r| <= 2 && forall k :: 0 <= k < |r| ==> r[k].marker == marker
    ensures r[0].request == PromptRequest(apiKey, PromptTitle(title), text, [])
    ensures |r| == 2 <==> !outcome.PromptFailed?
    ensures |r| == 2 ==> r[1].request == ImageRequest(apiKey, outcome.prompt)
  {
    var prompt := AiCall(marker, PromptRequest(apiKey, PromptTitle(title), text, []));
    match outcome
    case PromptFailed => [prompt]
    case ImageFailed(p) => [prompt, AiCall(marker, ImageRequest(apiKey, p))]
    case Generated(p, _) => [prompt, AiCall(marker, ImageRequest(apiKey, p))]
  }

  /** All of the editor's own state, for stating what a handler changes. */
  datatype EditorState = EditorState(
    currentText: string, currentImage: Option<string>, currentImageScale: real,
    editingPage: Option<StoryPage>, editText: string, editImage: Option<string>, editImageScale: real,
    draggedIndex: Option<nat>, dragOverIndex: Option<nat>,
    generatingImageFor: Option<string>,
    calls: seq<ParentCall>, alerts: seq<string>, aiCalls: seq<AiCall>)

  class Editor {
    const pages: seq<StoryPage>
    const title: string
    /** Whether the optional `onUpdatePage` prop is given. */
    const hasUpdatePage: bool
    /** Whether the optional `onReorderPages` prop is given. */
    const hasReorderPages: bool
    /** The session storage `getApiKey` reads. */
    const vault: SessionKeyVault

    var currentText: string
    var currentImage: Option<string>
    var currentImageScale: real
    var editingPage: Option<StoryPage>
    var editText: string
    var editImage: Option<string>
    var editImageScale: real
    var draggedIndex: Option<nat>
    var dragOverIndex: Option<nat>
    var generatingImageFor: Option<string>
    var calls: seq<ParentCall>
    var alerts: seq<string>
    var aiCalls: seq<AiCall>

    ghost function State(): EditorState
      reads this
    {
      EditorState(currentText, currentImage, currentImageScale,
                  editingPage, editText, editImage, editImageScale,
                  draggedIndex, dragOverIndex, generatingImageFor, calls, alerts, aiCalls)
    }

    /** Drag indices always name a page of the list. */
    ghost predicate Valid()
      reads this
    {
      (draggedIndex.Some? ==> draggedIndex.value < |pages|) &&
      (dragOverIndex.Some? ==> dragOverIndex.value < |pages|)
    }

    constructor(pages: seq<StoryPage>, title: string, hasUpdatePage: bool, hasReorderPages: bool, vault: SessionKeyVault)
      ensures Valid()
      ensures this.pages == pages && this.title == title && this.vault == vault
      ensures this.hasUpdatePage == hasUpdatePage && this.hasReorderPages == hasReorderPages
      ensures State() == EditorState("", None, 1.0, None, "", None, 1.0, None, None, None, [], [], [])
    {
      this.pages, this.title, this.vault := pages, title, vault;
      this.hasUpdatePage, this.hasReorderPages := hasUpdatePage, hasReorderPages;
      currentText, currentImage, currentImageScale := "", None, 1.0;
      editingPage, editText, editImage, editImageScale := None, "", None, 1.0;
      draggedIndex, dragOverIndex, generatingImageFor := None, None, None;
      calls, alerts, aiCalls := [], [], [];
    }

    /** `handleAddPage`: forwards the buffer once and resets it, unless it is empty. */
    method HandleAddPage()
      requires Valid()
      modifies this
      ensures Valid()
      ensures old(currentText) == "" && !Truthy(old(currentImage)) ==> State() == old(State())
      ensures !(old(currentText) == "" && !Truthy(old(currentImage))) ==>
        State() == old(State()).(
          calls := old(calls) + [AddPage(old(currentImage), old(currentImageScale), old(currentText))],
          currentText := "", currentImage := None, currentImageScale := 1.0)
    {
      if currentText == "" && !Truthy(currentImage) {
        return;
      }
      calls := calls + [AddPage(currentImage, currentImageScale, currentText)];
      currentText := "";
      currentImage := None;
      currentImageScale := 1.0;
    }

    /** The new-page text area's `onChange`. */
    method SetCurrentText(text: string)
      requires Valid()
      modifies this
      ensures Valid()
      ensures State() == old(State()).(currentText := text)
    {
      currentText := text;
    }

    /** The new-page image's remove button: no image, scale back to 1. */
    method RemoveCurrentImage()
      requires Valid()
      modifies this
      ensures Valid()
      ensures State() == old(State()).(currentImage := None, currentImageScale := 1.0)
    {
      currentImage := None;
      currentImageScale := 1.0;
    }

    /** The edit modal's text area `onChange`. */
    method SetEditText(text: string)
      requires Valid()
      modifies this
      ensures Valid()
      ensures State() == old(State()).(editText := text)
    {
      editText := text;
    }

    /** The edit modal's image remove button: no image, scale back to 1. */
    method RemoveEditImage()
      requires Valid()
      modifies this
      ensures Valid()
      ensures State() == old(State()).(editImage := None, editImageScale := 1.0)
    {
      editImage := None;
      editImageScale := 1.0;
    }

    /** `openEditModal`: copies the page into the edit buffer. */
    method OpenEditModal(page: StoryPage)
      requires Valid()
      modifies this
      ensures Valid()
      ensures State() == old(State()).(
        editingPage := Some(page), editText := page.text, editImage := page.image, editImageScale := page.imageScale)
    {
      editingPage := Some(page);
      editText := page.text;
      editImage := page.image;
      editImageScale := page.imageScale;
    }

    /** `closeEditModal`: empties the edit buffer. */
    method CloseEditModal()
      requires Valid()
      modifies this
      ensures Valid()
      ensures State() == old(State()).(editingPage := None, editText := "", editImage := None, editImageScale := 1.0)
    {
      editingPage := None;
      editText := "";
      editImage := None;
      editImageScale := 1.0;
    }

    /**
     * `savePageEdit`: sends the buffer's text, image and scale for the page
     * being edited and closes the modal; does nothing when no page is being
     * edited or no update callback is given.
     */
    method SavePageEdit()
      requires Valid()
      modifies this
      ensures Valid()
      ensures old(editingPage).None? || !hasUpdatePage ==> State() == old(State())
      ensures old(editingPage).Some? && hasUpdatePage ==>
        State() == old(State()).(
          calls := old(calls) + [UpdatePage(old(editingPage).value.id, old(editText), old(editImage), old(editImageScale))],
          editingPage := None, editText := "", editImage := None, editImageScale := 1.0)
    {
      if editingPage.Some? && hasUpdatePage {
        calls := calls + [UpdatePage(editingPage.value.id, editText, editImage, editImageScale)];
        CloseEditModal();
      }
    }

    /** `handleDragStart`. */
    method HandleDragStart(index: nat)
      requires Valid() && index < |pages|
      modifies this
      ensures Valid()
      ensures State() == old(State()).(draggedIndex := Some(index))
    {
      draggedIndex := Some(index);
    }

    /** `handleDragOver`. */
    method HandleDragOver(index: nat)
      requires Valid() && index < |pages|
      modifies this
      ensures Valid()
      ensures State() == old(State()).(dragOverIndex := Some(index))
    {
      dragOverIndex := Some(index);
    }

    /** `handleDragEnd`: back to idle, whatever happened. */
    method HandleDragEnd()
      requires Valid()
      modifies this
      ensures Valid()
      ensures State() == old(State()).(draggedIndex := None, dragOverIndex := None)
    {
      draggedIndex := None;
      dragOverIndex := None;
    }

    /**
     * `handleDrop`: with a page being dragged, a different drop index and a
     * reorder callback, sends the list with the dragged page moved to the drop
     * index and returns to idle; otherwise changes nothing.
     */
    method HandleDrop(dropIndex: nat)
      requires Valid() && dropIndex < |pages|
      modifies this
      ensures Valid()
      ensures old(draggedIndex).None? || old(draggedIndex) == Some(dropIndex) || !hasReorderPages ==>
        State() == old(State())
      ensures old(draggedIndex).Some? && old(draggedIndex) != Some(dropIndex) && hasReorderPages ==>
        State() == old(State()).(
          calls := old(calls) + [ReorderPages(Moved(pages, old(draggedIndex).value, dropIndex))],
          draggedIndex := None, dragOverIndex := None)
    {
      if draggedIndex.None? || draggedIndex.value == dropIndex || !hasReorderPages {
        return;
      }
      var from := draggedIndex.value;
      var newPages := pages;
      var draggedPage := newPages[from];
      newPages := RemoveAt(newPages, from);
      newPages := InsertAt(newPages, dropIndex, draggedPage);
      SpliceMoveIsMoved(pages, from, dropIndex);
      calls := calls + [ReorderPages(newPages)];
      draggedIndex := None;
      dragOverIndex := None;
    }

    /**
     * The `try`/`catch`/`finally` both generation handlers share, once a key
     * was found: the marker is set while the requests go out, a failure
     * alerts, and the marker is cleared in every case. Returns the generated
     * image, if any, for the caller to apply.
     */
    method Attempt(marker: string, apiKey: string, pageText: string, outcome: AiOutcome) returns (generated: Option<string>)
      requires Valid()
      modifies this
      ensures Valid()
      ensures generated == if outcome.Generated? then Some(outcome.image) else None
      ensures State() == old(State()).(
        aiCalls := old(aiCalls) + AttemptCalls(Some(marker), apiKey, title, pageText, outcome),
        alerts := if outcome.Generated? then old(alerts) else old(alerts) + [AlertGenerationFailed],
        generatingImageFor := None)
    {
      generatingImageFor := Some(marker);
      aiCalls := aiCalls + [AiCall(generatingImageFor, PromptRequest(apiKey, PromptTitle(title), pageText, []))];
      generated := None;
      match outcome {
        case PromptFailed =>
          alerts := alerts + [AlertGenerationFailed];
        case ImageFailed(prompt) =>
          aiCalls := aiCalls + [AiCall(generatingImageFor, ImageRequest(apiKey, prompt))];
          alerts := alerts + [AlertGenerationFailed];
        case Generated(prompt, image) =>
          aiCalls := aiCalls + [AiCall(generatingImageFor, ImageRequest(apiKey, prompt))];
          generated := Some(image);
      }
      generatingImageFor := None;
    }

    /**
     * `handleGenerateImage` for an existing page (or, with `isEditModal`, for
     * the edit buffer). `outcome` is how the two AI calls turn out. Without a
     * usable stored key it only alerts; otherwise it runs the attempt under
     * the page id as marker and puts a generated image into the edit buffer
     * or sends it to the parent.
     */
    method HandleGenerateImage(pageId: string, pageText: string, isEditModal: bool, outcome: AiOutcome)
      requires Valid()
      modifies this
      ensures Valid()
      ensures !Truthy(StoredApiKey(vault.slot)) ==>
        State() == old(State()).(alerts := old(alerts) + [AlertNoApiKey])
      ensures Truthy(StoredApiKey(vault.slot)) && !outcome.Generated? ==>
        State() == old(State()).(
          aiCalls := old(aiCalls) + AttemptCalls(Some(pageId), StoredApiKey(vault.slot).value, title, pageText, outcome),
          alerts := old(alerts) + [AlertGenerationFailed],
          generatingImageFor := None)
      ensures Truthy(StoredApiKey(vault.slot)) && outcome.Generated? && isEditModal ==>
        State() == old(State()).(
          aiCalls := old(aiCalls) + AttemptCalls(Some(pageId), StoredApiKey(vault.slot).value, title, pageText, outcome),
          editImage := Some(outcome.image), editImageScale := 1.0,
          generatingImageFor := None)
      ensures Truthy(StoredApiKey(vault.slot)) && outcome.Generated? && !isEditModal ==>
        State() == old(State()).(
          aiCalls := old(aiCalls) + AttemptCalls(Some(pageId), StoredApiKey(vault.slot).value, title, pageText, outcome),
          calls := if hasUpdatePage then old(calls) + [UpdatePageImage(pageId, outcome.image, 1.0)] else old(calls),
          generatingImageFor := None)
    {
      var apiKey := vault.GetApiKey();
      if !Truthy(apiKey) {
        alerts := alerts + [AlertNoApiKey];
        return;
      }
      var generated := Attempt(pageId, apiKey.value, pageText, outcome);
      if generated.Some? {
        if isEditModal {
          editImage := generated;
          editImageScale := 1.0;
        } else if hasUpdatePage {
          calls := calls + [UpdatePageImage(pageId, generated.value, 1.0)];
        }
      }
    }

    /**
     * `handleGenerateNewPageImage`: rejects an empty text before the key is
     * read, then runs the attempt under the marker `"new"` and puts a
     * generated image into the new-page buffer.
     */
    method HandleGenerateNewPageImage(outcome: AiOutcome)
      requires Valid()
      modifies this
      ensures Valid()
      ensures old(currentText) == "" ==> State() == old(State()).(alerts := old(alerts) + [AlertNoText])
      ensures old(currentText) != "" && !Truthy(StoredApiKey(vault.slot)) ==>
        State() == old(State()).(alerts := old(alerts) + [AlertNoApiKey])
      ensures old(currentText) != "" && Truthy(StoredApiKey(vault.slot)) && !outcome.Generated? ==>
        State() == old(State()).(
          aiCalls := old(aiCalls) + AttemptCalls(Some(NewPageMarker), StoredApiKey(vault.slot).value, title, old(currentText), outcome),
          alerts := old(alerts) + [AlertGenerationFailed],
          generatingImageFor := None)
      ensures old(currentText) != "" && Truthy(StoredApiKey(vault.slot)) && outcome.Generated? ==>
        State() == old(State()).(
          aiCalls := old(aiCalls) + AttemptCalls(Some(NewPageMarker), StoredApiKey(vault.slot).value, title, old(currentText), outcome),
          currentImage := Some(outcome.image), currentImageScale := 1.0,
          generatingImageFor := None)
    {
      if currentText == "" {
        alerts := alerts + [AlertNoText];
        return;
      }
      var apiKey := vault.GetApiKey();
      if !Truthy(apiKey) {
        alerts := alerts + [AlertNoApiKey];
        return;
      }
      var generated := Attempt(NewPageMarker, apiKey.value, currentText, outcome);
      if generated.Some? {
        currentImage := generated;
        currentImageScale := 1.0;
      }
    }
  }

  /**
   * One whole drag gesture on a fresh drag state: start on `from`, hover and
   * drop on `to`. The parent receives the moved list once and the drag state
   * is idle again.
   */
  method DragGesture(e: Editor, from: nat, to: nat)
    requires e.Valid() && from < |e.pages| && to < |e.pages| && from != to && e.hasReorderPages
    modifies e
    ensures e.Valid()
    ensures e.State() == old(e.State()).(calls := old(e.calls) + [ReorderPages(Moved(e.pages, from, to))],
                                         draggedIndex := None, dragOverIndex := None)
  {
    e.HandleDragStart(from);
    e.HandleDragOver(to);
    e.HandleDrop(to);
  }

  /**
   * Typing a text into the new-page buffer and pressing "add": unless the
   * text is empty and there is no image, the page goes to the parent with
   * that text and the buffer's image and scale, exactly once, and the buffer
   * is emptied; otherwise only the typed (empty) text is kept.
   */
  method TypeThenAdd(e: Editor, text: string)
    requires e.Valid()
    modifies e
    ensures e.Valid()
    ensures text == "" && !Truthy(old(e.currentImage)) ==> e.State() == old(e.State()).(currentText := "")
    ensures !(text == "" && !Truthy(old(e.currentImage))) ==>
      e.State() == old(e.State()).(calls := old(e.calls) + [AddPage(old(e.currentImage), old(e.currentImageScale), text)],
                                   currentText := "", currentImage := None, currentImageScale := 1.0)
  {
    e.SetCurrentText(text);
    e.HandleAddPage();
  }

  /**
   * Opening a page in the modal and saving it unchanged sends exactly the
   * page's own text, image and scale for its id, and closes the modal.
   */
  method EditRoundTrip(e: Editor, page: StoryPage)
    requires e.Valid() && e.hasUpdatePage
    modifies e
    ensures e.Valid()
    ensures e.State() == old(e.State()).(calls := old(e.calls) + [UpdatePage(page.id, page.text, page.image, page.imageScale)],
                                         editingPage := None, editText := "", editImage := None, editImageScale := 1.0)
  {
    e.OpenEditModal(page);
    e.SavePageEdit();
  }
}
