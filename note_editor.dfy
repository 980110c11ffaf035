/** The note editor page: a draft note with a tag list, the pending tag
    input, and the loading / saving / error flags, together with the rules
    that validate and normalise a draft on save, choose the request to send,
    and turn a failed load into a message. Network calls are replaced by the
    outcome they deliver, passed in as a parameter. */
module NoteEditor {
  import opened Wrappers
  import opened Text
  import opened Sequences

  const DefaultCategory := "general"
  const NewNoteId := "new"
  const MissingFieldsAlert := "Please provide both a title and content for your note"
  const NotFoundMessage := "Note not found"
  const ForbiddenMessage := "You do not have permission to edit this note"
  const LoadFailedMessage := "Failed to load note"
  const SaveFailedMessage := "Failed to save note"

  /** The draft (`Partial<Note>`). A loaded note replaces it wholesale, so
      any field may be missing. */
  datatype Draft = Draft(
    title: Option<string>,
    content: Option<string>,
    category: Option<string>,
    tags: Option<seq<string>>,
    isPublic: Option<bool>)

  /** The draft a new editor starts from. */
  const InitialDraft := Draft(Some(""), Some(""), Some(DefaultCategory), Some([]), Some(false))

  /** The payload sent when a note is saved. */
  datatype NoteData = NoteData(title: string, content: string, category: string, tags: seq<string>, isPublic: bool)

  datatype Account = Account(id: string, name: string)

  /** JavaScript truthiness of an optional string: present and non-empty. */
  predicate Truthy(s: Option<string>) {
    s.Some? && s.value != ""
  }

  /** `id && id !== 'new'`: the route carries the id of an existing note. */
  predicate IsEditing(id: Option<string>)
    ensures IsEditing(id) ==> Truthy(id)
  {
    Truthy(id) && id.value != NewNoteId
  }

  /** The editor opened at `notes/new` (no id) creates; opened with a note
      id it edits that note. */
  lemma EditingModes(s: string)
    ensures !IsEditing(None) && !IsEditing(Some(NewNoteId)) && !IsEditing(Some(""))
    ensures s != "" && s != NewNoteId ==> IsEditing(Some(s))
  {
  }

  /** A fresh editor has nothing to save: its empty title is rejected. */
  lemma InitialDraftRejected()
    ensures NoteDataOf(InitialDraft) == Err(MissingFieldsAlert)
    ensures TagList(InitialDraft) == [] && InitialDraft.isPublic == Some(false) && InitialDraft.category == Some(DefaultCategory)
  {
  }

  /** The tag list as the handlers read it (`prev.tags || []`). */
  function TagList(d: Draft): seq<string> {
    d.tags.GetOr([])
  }

  /** Save-time validation and normalisation. A draft whose trimmed title or
      trimmed content is empty (or missing) is rejected with the alert text;
      otherwise the payload carries the trimmed title and content, a
      non-empty category, and the draft's tags and visibility, defaulted. */
  function NoteDataOf(d: Draft): (r: Result<NoteData, string>)
    ensures r.Err? <==> d.title.None? || d.content.None? || AllWhitespace(d.title.value) || AllWhitespace(d.content.value)
    ensures r.Err? ==> r.error == MissingFieldsAlert
    ensures r.Ok? ==> r.value.title != [] && Trim(r.value.title) == r.value.title && r.value.title == Trim(d.title.value)
    ensures r.Ok? ==> r.value.content != [] && Trim(r.value.content) == r.value.content && r.value.content == Trim(d.content.value)
    ensures r.Ok? ==> r.value.category != "" && (Truthy(d.category) ==> r.value.category == d.category.value)
    ensures r.Ok? && !Truthy(d.category) ==> r.value.category == DefaultCategory
    ensures r.Ok? ==> r.value.tags == TagList(d) && (r.value.isPublic <==> d.isPublic == Some(true))
  {
    if d.title.None? || d.content.None? || Trim(d.title.value) == [] || Trim(d.content.value) == [] then
      Err(MissingFieldsAlert)
    else
      TrimIdempotent(d.title.value);
      TrimIdempotent(d.content.value);
      Ok(NoteData(
        Trim(d.title.value),
        Trim(d.content.value),
        if Truthy(d.category) then d.category.value else DefaultCategory,
        TagList(d),
        d.isPublic.GetOr(false)))
  }

  /** A payload viewed as a draft, as it is after a reload of the saved note. */
  function DraftOf(n: NoteData): Draft {
    Draft(Some(n.title), Some(n.content), Some(n.category), Some(n.tags), Some(n.isPublic))
  }

  /** Normalisation is idempotent: saving the draft of a saved payload sends
      the same payload again. */
  lemma NormaliseIdempotent(d: Draft)
    requires NoteDataOf(d).Ok?
    ensures NoteDataOf(DraftOf(NoteDataOf(d).value)) == NoteDataOf(d)
  {
    var n := NoteDataOf(d).value;
    TrimmedIsFixed(n.title);
    TrimmedIsFixed(n.content);
    assert AllWhitespace(n.title) ==> n.title == [];
  }

  /** One call of the notes API client; the `InAccount` variants carry the
      account the request is scoped to. */
  datatype Request =
    | GetNote(noteId: string)
    | GetNoteInAccount(accountId: string, noteId: string)
    | CreateNote(data: NoteData)
    | CreateNoteInAccount(accountId: string, data: NoteData)
    | UpdateNote(noteId: string, data: NoteData)
    | UpdateNoteInAccount(accountId: string, noteId: string, data: NoteData)

  datatype Verb = Get | Post | Put

  /** The HTTP call a request becomes: verb, path, account scope and body. */
  datatype HttpCall = HttpCall(verb: Verb, path: string, accountScope: Option<string>, body: Option<NoteData>)

  function NotePath(noteId: string): string {
    "/notes/" + noteId
  }

  function ToHttp(r: Request): HttpCall {
    match r
    case GetNote(n) => HttpCall(Get, NotePath(n), None, None)
    case GetNoteInAccount(a, n) => HttpCall(Get, NotePath(n), Some(a), None)
    case CreateNote(d) => HttpCall(Post, "/notes", None, Some(d))
    case CreateNoteInAccount(a, d) => HttpCall(Post, "/notes", Some(a), Some(d))
    case UpdateNote(n, d) => HttpCall(Put, NotePath(n), None, Some(d))
    case UpdateNoteInAccount(a, n, d) => HttpCall(Put, NotePath(n), Some(a), Some(d))
  }

  /** The request that loads a note: account-scoped exactly when an account
      is selected. */
  function FetchRequest(id: string, account: Option<Account>): (r: Request)
    ensures r.GetNote? || r.GetNoteInAccount?
    ensures r.GetNoteInAccount? <==> account.Some?
    ensures r.GetNoteInAccount? ==> r.accountId == account.value.id
    ensures r.noteId == id
  {
    if account.Some? then GetNoteInAccount(account.value.id, id) else GetNote(id)
  }

  /** The request that saves a payload: an update exactly when editing an
      existing note, account-scoped exactly when an account is selected,
      and always carrying the payload unchanged. */
  function SaveRequest(id: Option<string>, account: Option<Account>, data: NoteData): (r: Request)
    ensures !r.GetNote? && !r.GetNoteInAccount? && r.data == data
    ensures r.UpdateNote? || r.UpdateNoteInAccount? <==> IsEditing(id)
    ensures (r.UpdateNote? || r.UpdateNoteInAccount?) ==> r.noteId == id.value
    ensures r.CreateNoteInAccount? || r.UpdateNoteInAccount? <==> account.Some?
    ensures (r.CreateNoteInAccount? || r.UpdateNoteInAccount?) ==> r.accountId == account.value.id
  {
    if IsEditing(id) && Truthy(id) then
      if account.Some? then UpdateNoteInAccount(account.value.id, id.value, data)
      else UpdateNote(id.value, data)
    else
      if account.Some? then CreateNoteInAccount(account.value.id, data)
      else CreateNote(data)
  }

  /** The account-scoped and the default variant of a call are the same HTTP
      call except for the account scope. */
  lemma ScopingChangesOnlyScope(id: Option<string>, account: Account, data: NoteData, noteId: string)
    ensures ToHttp(SaveRequest(id, Some(account), data)) ==
      ToHttp(SaveRequest(id, None, data)).(accountScope := Some(account.id))
    ensures ToHttp(FetchRequest(noteId, Some(account))) ==
      ToHttp(FetchRequest(noteId, None)).(accountScope := Some(account.id))
  {
  }

  /** The message shown when loading a note fails, by HTTP status (absent
      when the failure carried no response). */
  function LoadErrorMessage(status: Option<int>): (m: string)
    ensures m == NotFoundMessage <==> status == Some(404)
    ensures m == ForbiddenMessage <==> status == Some(403)
    ensures m == LoadFailedMessage <==> status != Some(404) && status != Some(403)
  {
    if status == Some(404) then NotFoundMessage
    else if status == Some(403) then ForbiddenMessage
    else LoadFailedMessage
  }

  /** The alert shown when saving fails: the server's error text when it
      sent a non-empty one, the generic message otherwise. */
  function SaveErrorMessage(serverError: Option<string>): (m: string)
    ensures m != ""
    ensures Truthy(serverError) ==> m == serverError.value
    ensures !Truthy(serverError) ==> m == SaveFailedMessage
  {
    if Truthy(serverError) then serverError.value else SaveFailedMessage
  }

  /** `tags.filter(tag => tag !== t)`: every occurrence of `t` goes, every
      other tag stays, with its multiplicity and in its order. */
  function RemoveTag(tags: seq<string>, t: string): (r: seq<string>)
    ensures t !in r
    ensures forall x :: x != t ==> multiset(r)[x] == multiset(tags)[x]
    ensures |r| == |tags| - multiset(tags)[t]
    ensures IsSubsequence(r, tags)
  {
    if tags == [] then []
    else
      var rest := RemoveTag(tags[1..], t);
      assert tags == [tags[0]] + tags[1..];
      if tags[0] == t then rest
      else
        assert ([tags[0]] + rest)[1..] == rest;
        [tags[0]] + rest
  }

  /** Adding a tag that was absent and then removing it gives back the list. */
  lemma {:induction false} AddThenRemove(tags: seq<string>, t: string)
    requires t !in tags
    ensures RemoveTag(tags + [t], t) == tags
  {
    if tags == [] {
      assert [] + [t] == [t];
    } else {
      assert (tags + [t])[1..] == tags[1..] + [t];
      AddThenRemove(tags[1..], t);
    }
  }

  /** Removing never introduces a duplicate. */
  lemma RemoveKeepsNoDuplicates(tags: seq<string>, t: string)
    requires NoDuplicates(tags)
    ensures NoDuplicates(RemoveTag(tags, t))
  {
    SubsequenceKeepsNoDuplicates(RemoveTag(tags, t), tags);
  }

  /** The outcome of an upstream load. */
  datatype FetchResult = Fetched(note: Draft) | FetchFailed(status: Option<int>)

  /** The outcome of an upstream save: the id of the stored note, or the
      error text the server sent, if any. */
  datatype SaveResult = Saved(noteId: string) | SaveFailed(serverError: Option<string>)

  /** What a save attempt did: rejected before any request (with the alert
      shown), or sent a request and then navigated or alerted. */
  datatype SaveOutcome =
    | Rejected(alert: string)
    | Navigated(request: Request, to: string)
    | Failed(request: Request, alert: string)

  /** How a sent save request ends: on success the editor navigates to the
      stored note's page, on failure it alerts. */
  function SaveCompleted(request: Request, response: SaveResult): SaveOutcome {
    match response
    case Saved(noteId) => Navigated(request, NotePath(noteId))
    case SaveFailed(serverError) => Failed(request, SaveErrorMessage(serverError))
  }

  /** The editor page's state. `id` is the route parameter and `account`
      the selected account; both are fixed for the page's lifetime here. */
  class Editor {
    const id: Option<string>
    const account: Option<Account>
    var note: Draft
    var loading: bool
    var saving: bool
    var error: Option<string>
    var newTag: string

    constructor (id: Option<string>, account: Option<Account>)
      ensures this.id == id && this.account == account
      ensures note == InitialDraft && !loading && !saving && error == None && newTag == ""
    {
      this.id := id;
      this.account := account;
      note := InitialDraft;
      loading := false;
      saving := false;
      error := None;
      newTag := "";
    }

    /** Loads the note named by the route: nothing happens without an id;
        otherwise the note (or an error message) replaces what was there and
        `loading` is false again at the end, whatever the outcome. */
    method FetchNote(response: FetchResult) returns (request: Option<Request>)
      modifies this`note, this`loading, this`error
      ensures !Truthy(id) ==> request == None && note == old(note) && loading == old(loading) && error == old(error)
      ensures Truthy(id) ==> request == Some(FetchRequest(id.value, account)) && !loading
      ensures Truthy(id) && response.Fetched? ==> note == response.note && error == None
      ensures Truthy(id) && response.FetchFailed? ==>
        note == old(note) && error == Some(LoadErrorMessage(response.status))
    {
      if !Truthy(id) {
        return None;
      }
      loading := true;
      error := None;
      request := Some(FetchRequest(id.value, account));
      match response {
        case Fetched(n) => note := n;
        case FetchFailed(status) => error := Some(LoadErrorMessage(status));
      }
      loading := false;
    }

    /** Saves the draft. An invalid draft is rejected with no request and
        no state change; otherwise the normalised payload is sent to the
        endpoint `SaveRequest` picks, a success navigates to the stored
        note, and `saving` is false at the end whatever the outcome. */
    method HandleSave(response: SaveResult) returns (outcome: SaveOutcome)
      modifies this`saving
      ensures NoteDataOf(note).Err? ==> outcome == Rejected(MissingFieldsAlert) && saving == old(saving)
      ensures NoteDataOf(note).Ok? ==> !saving
      ensures NoteDataOf(note).Ok? ==> outcome == SaveCompleted(SaveRequest(id, account, NoteDataOf(note).value), response)
    {
      var data := NoteDataOf(note);
      if data.Err? {
        return Rejected(data.error);
      }
      saving := true;
      var request := SaveRequest(id, account, data.value);
      outcome := SaveCompleted(request, response);
      saving := false;
    }

    /** Ctrl+Enter in the title or content field saves; other keys do nothing. */
    method HandleKeyPress(key: string, ctrlKey: bool, response: SaveResult) returns (outcome: Option<SaveOutcome>)
      modifies this`saving
      ensures !(key == "Enter" && ctrlKey) ==> outcome == None && saving == old(saving)
      ensures key == "Enter" && ctrlKey && NoteDataOf(note).Err? ==>
        outcome == Some(Rejected(MissingFieldsAlert)) && saving == old(saving)
      ensures key == "Enter" && ctrlKey && NoteDataOf(note).Ok? ==>
        !saving && outcome == Some(SaveCompleted(SaveRequest(id, account, NoteDataOf(note).value), response))
    {
      if key == "Enter" && ctrlKey {
        var o := HandleSave(response);
        outcome := Some(o);
      } else {
        outcome := None;
      }
    }

    /** Appends the trimmed pending tag and clears the input, but only when
        it is non-empty and not already a tag; no other field changes. */
    method HandleAddTag()
      modifies this`note, this`newTag
      ensures var t := Trim(old(newTag));
        if t != [] && t !in TagList(old(note)) then
          note == old(note).(tags := Some(TagList(old(note)) + [t])) && newTag == ""
        else
          note == old(note) && newTag == old(newTag)
      ensures NoDuplicates(TagList(old(note))) ==> NoDuplicates(TagList(note))
    {
      var t := Trim(newTag);
      if t != [] && t !in TagList(note) {
        note := note.(tags := Some(TagList(note) + [t]));
        newTag := "";
      }
    }

    /** Removes every occurrence of a tag; no other field changes. */
    method HandleRemoveTag(t: string)
      modifies this`note
      ensures note == old(note).(tags := Some(RemoveTag(TagList(old(note)), t)))
      ensures NoDuplicates(TagList(old(note))) ==> NoDuplicates(TagList(note))
    {
      note := note.(tags := Some(RemoveTag(TagList(note), t)));
      if NoDuplicates(TagList(old(note))) {
        RemoveKeepsNoDuplicates(TagList(old(note)), t);
      }
    }

    /** The public/private button: flips visibility (a missing flag counts as private). */
    method TogglePublic()
      modifies this`note
      ensures note == old(note).(isPublic := Some(!old(note).isPublic.GetOr(false)))
    {
      note := note.(isPublic := Some(!note.isPublic.GetOr(false)));
    }

    /** Typing into the title, content, category and tag inputs. */
    method SetTitle(v: string)
      modifies this`note
      ensures note == old(note).(title := Some(v))
    {
      note := note.(title := Some(v));
    }

    method SetContent(v: string)
      modifies this`note
      ensures note == old(note).(content := Some(v))
    {
      note := note.(content := Some(v));
    }

    method SetCategory(v: string)
      modifies this`note
      ensures note == old(note).(category := Some(v))
    {
      note := note.(category := Some(v));
    }

    method SetNewTag(v: string)
      modifies this`newTag
      ensures newTag == v
    {
      newTag := v;
    }
  }
}
