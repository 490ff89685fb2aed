/** The event-creation wizard: a step machine driven by buttons, the event
    type choice, loading an event for editing, and the submit that either
    updates the edited event or creates a new one with a fresh code. The
    backend calls, the random source and the 2-second processing delay are
    inputs and explicit steps. */
module CreateEvent {
  import opened Common
  import opened Entities

  datatype Step = Welcome | SelectType | BasicInfo | CoverImage | DateSelect | Summary | Processing | Success

  /** The wizard's position along its forward path. */
  function Position(s: Step): nat {
    match s
    case Welcome => 0
    case SelectType => 1
    case BasicInfo => 2
    case CoverImage => 3
    case DateSelect => 4
    case Summary => 5
    case Processing => 6
    case Success => 7
  }

  /** The editable form: `id` and `cover_image` may be null. */
  datatype FormData = FormData(id: Option<string>, title: string, kind: string, date: string,
                               description: string, coverImage: Option<string>, code: string)

  const EmptyForm: FormData := FormData(None, "", "", "", "", None, "")

  /** The navigation buttons: start on the welcome card, continue and back on
      the later cards. (The type cards move on by choosing a type.) */
  datatype Button = Start | Continue | Back

  /** Where a button leads from a step, if that step shows it. */
  function Target(s: Step, b: Button): (r: Option<Step>)
    ensures r.Some? && b != Back ==> Position(r.value) == Position(s) + 1
    ensures r.Some? && b == Back ==> Position(r.value) + 1 == Position(s)
    ensures r.Some? ==> Position(s) <= 5 && Position(r.value) <= 5
  {
    match (s, b)
    case (Welcome, Start) => Some(SelectType)
    case (BasicInfo, Continue) => Some(CoverImage)
    case (CoverImage, Back) => Some(BasicInfo)
    case (CoverImage, Continue) => Some(DateSelect)
    case (DateSelect, Back) => Some(CoverImage)
    case (DateSelect, Continue) => Some(Summary)
    case (Summary, Back) => Some(DateSelect)
    case _ => None
  }

  /** Every back button returns to the step whose forward button led here, and
      going forward then back returns where one started when the next card has
      a back button. */
  lemma {:induction false} BackUndoesForward(s: Step, t: Step)
    ensures Target(s, Back) == Some(t) ==> Target(t, Continue) == Some(s)
    ensures Target(s, Continue) == Some(t) && Target(t, Back).Some? ==> Target(t, Back) == Some(s)
  {
  }

  /** Pressing start and then choosing a type, then continue three times, runs
      through the forward path to the summary. */
  lemma {:induction false} ForwardPath()
    ensures Target(Welcome, Start) == Some(SelectType)
    ensures Target(BasicInfo, Continue) == Some(CoverImage)
    ensures Target(CoverImage, Continue) == Some(DateSelect)
    ensures Target(DateSelect, Continue) == Some(Summary)
    ensures forall s :: Target(s, Continue) != Some(BasicInfo) && Target(s, Start) != Some(BasicInfo)
  {
  }

  /** A button on a card the user cannot press. */
  predicate Disabled(s: Step, b: Button, form: FormData, hasExistingEvent: bool, isEditing: bool) {
    (s == Welcome && b == Start && hasExistingEvent && !isEditing)
    || (s == BasicInfo && b == Continue && !Truthy(form.title))
  }

  /** `getEventTypeEmoji`: the emoji per known type; everything else, `other`
      included, gets the calendar. */
  const TypeEmojis: map<string, string> := map[
    "wedding" := "👰",
    "bar_mitzvah" := "✡️",
    "bat_mitzvah" := "✡️",
    "brit" := "👶",
    "corporate" := "💼",
    "birthday" := "🎂",
    "party" := "🎉"]

  const DefaultEmoji: string := "📅"

  function EventTypeEmoji(kind: string): (r: string)
    ensures kind in TypeEmojis ==> r == TypeEmojis[kind]
    ensures r == DefaultEmoji <==> kind !in TypeEmojis
  {
    if kind in TypeEmojis then TypeEmojis[kind] else DefaultEmoji
  }

  /** `Math.random().toString(36).substring(2, 6).toUpperCase()`, with the
      random number's base-36 text as the input: characters 2 to 5, as many of
      them as there are, upper-cased. */
  function RandomCode(randomText: string): (r: string)
    ensures |r| <= 4
    ensures |randomText| >= 6 ==> |r| == 4
    ensures forall i :: 0 <= i < |r| ==> !('a' <= r[i] <= 'z')
    ensures forall i :: 0 <= i < |r| ==> i + 2 < |randomText| && r[i] == UpperChar(randomText[i + 2])
  {
    var start := if |randomText| < 2 then |randomText| else 2;
    var end := if |randomText| < 6 then |randomText| else 6;
    Upper(randomText[start..end])
  }

  /** The placeholder owner when no user is known. */
  const GuestOwner: string := "guest@example.com"

  /** `currentUser?.email || 'guest@example.com'`. */
  function OwnerEmail(user: Option<User>): (r: string)
    ensures user.Some? && user.value.email != "" ==> r == user.value.email
    ensures (user.None? || user.value.email == "") ==> r == GuestOwner
    ensures r != ""
  {
    if user.Some? && Truthy(user.value.email) then user.value.email else GuestOwner
  }

  /** What the submit sends: an update of the five editable fields of the
      edited event, or a create of the whole form with a new code and owner. */
  datatype Request =
    | UpdateRequest(id: Option<string>, title: string, kind: string, date: string,
                    description: string, coverImage: Option<string>)
    | CreateRequest(data: FormData, ownerEmail: string)

  /** The request for a submitted form. */
  function SubmitRequest(form: FormData, isEditing: bool, randomText: string, user: Option<User>): (r: Request)
    ensures isEditing <==> r.UpdateRequest?
    ensures r.UpdateRequest? ==>
      (r.id == form.id && r.title == form.title && r.kind == form.kind
       && r.date == form.date && r.description == form.description && r.coverImage == form.coverImage)
    ensures r.CreateRequest? ==> r.data == form.(code := RandomCode(randomText)) && r.ownerEmail == OwnerEmail(user)
  {
    if isEditing then UpdateRequest(form.id, form.title, form.kind, form.date, form.description, form.coverImage)
    else CreateRequest(form.(code := RandomCode(randomText)), OwnerEmail(user))
  }

  /** A created event's code is at most four characters and has no lower-case
      letter; the owner is the user's email or the placeholder. */
  lemma {:induction false} CreatedCodeShape(form: FormData, randomText: string, user: Option<User>)
    ensures var r := SubmitRequest(form, false, randomText, user);
      r.CreateRequest? && |r.data.code| <= 4 && (forall i :: 0 <= i < |r.data.code| ==> !('a' <= r.data.code[i] <= 'z'))
      && r.data.title == form.title && r.data.kind == form.kind && r.ownerEmail != ""
  {
  }

  /** The form `loadEvent` fills from a stored event: missing text fields
      become empty and a missing cover stays null. */
  function FormOf(e: Event): (r: FormData)
    ensures r.id == Some(e.id) && r.title == e.title && r.kind == e.kind && r.code == e.code
    ensures r.coverImage.Some? <==> Present(e.coverImage)
    ensures r.coverImage.Some? ==> r.coverImage == e.coverImage
  {
    FormData(Some(e.id), e.title, e.kind, e.date, e.description,
             if Present(e.coverImage) then e.coverImage else None, e.code)
  }

  datatype Field = TitleField | DescriptionField | DateField

  class Wizard {
    var form: FormData
    var step: Step
    var previewUrl: Option<string>
    var loading: bool
    /** The saved event, shown once the processing delay has passed. */
    var pending: Option<Event>
    var createdEvent: Option<Event>
    var currentUser: Option<User>
    var isEditing: bool
    var hasExistingEvent: bool
    var requests: seq<Request>
    var alerts: nat
    var redirect: Option<string>

    constructor ()
      ensures form == EmptyForm && step == Welcome && previewUrl == None && !loading
      ensures pending == None && createdEvent == None && currentUser == None
      ensures !isEditing && !hasExistingEvent && requests == [] && alerts == 0 && redirect == None
    {
      form, step, previewUrl, loading := EmptyForm, Welcome, None, false;
      pending, createdEvent, currentUser := None, None, None;
      isEditing, hasExistingEvent, requests, alerts, redirect := false, false, [], 0, None;
    }

    /** `checkExistingEvent`: while not editing, an owner with at least one
        event is marked as having one and, unless the address asks to edit,
        sent to the dashboard. A failed query changes nothing. */
    method CheckExistingEvent(owned: Result<seq<Event>>, search: string)
      modifies this
      ensures !old(isEditing) && owned.Ok? && |owned.value| > 0 ==> hasExistingEvent
      ensures !old(isEditing) && owned.Ok? && |owned.value| > 0 && !Contains(search, "edit=")
        ==> redirect == Some("EventsDashboard")
      ensures !(!old(isEditing) && owned.Ok? && |owned.value| > 0)
        ==> hasExistingEvent == old(hasExistingEvent) && redirect == old(redirect)
      ensures step == old(step) && form == old(form) && isEditing == old(isEditing)
      ensures requests == old(requests) && currentUser == old(currentUser)
    {
      if isEditing { return; }
      if owned.Ok? && |owned.value| > 0 {
        hasExistingEvent := true;
        if !Contains(search, "edit=") {
          redirect := Some("EventsDashboard");
        }
      }
    }

    /** The mount effect: no user, or a failed lookup, sends the visitor to the
        welcome page; otherwise the user is kept and the existing-event check runs. */
    method CheckAuth(user: Result<Option<User>>, owned: Result<seq<Event>>, search: string)
      modifies this
      ensures user.Err? || user.value.None? ==>
        (redirect == Some("Welcome") && currentUser == old(currentUser) && hasExistingEvent == old(hasExistingEvent))
      ensures user.Ok? && user.value.Some? ==> currentUser == user.value
      ensures step == old(step) && form == old(form) && requests == old(requests)
    {
      if user.Err? || user.value.None? {
        redirect := Some("Welcome");
        return;
      }
      currentUser := user.value;
      if !isEditing {
        CheckExistingEvent(owned, search);
      }
    }

    /** `loadEvent`: a found event fills the form and its cover preview, turns
        editing on and returns to the welcome card; loading always ends. */
    method LoadEvent(found: Result<Option<Event>>)
      modifies this
      ensures found.Ok? && found.value.Some? ==> form == FormOf(found.value.value) && isEditing && step == Welcome
      ensures found.Ok? && found.value.Some? && Present(found.value.value.coverImage)
        ==> previewUrl == found.value.value.coverImage
      ensures !(found.Ok? && found.value.Some? && Present(found.value.value.coverImage)) ==> previewUrl == old(previewUrl)
      ensures !(found.Ok? && found.value.Some?) ==> form == old(form) && isEditing == old(isEditing) && step == old(step)
      ensures !loading
      ensures requests == old(requests) && hasExistingEvent == old(hasExistingEvent)
    {
      loading := true;
      if found.Ok? && found.value.Some? {
        var e := found.value.value;
        form := FormOf(e);
        if Present(e.coverImage) {
          previewUrl := e.coverImage;
        }
        isEditing := true;
        step := Welcome;
      }
      loading := false;
    }

    /** `handleInputChange` for the text fields. */
    method SetField(f: Field, value: string)
      modifies this
      ensures f == TitleField ==> form == old(form).(title := value)
      ensures f == DescriptionField ==> form == old(form).(description := value)
      ensures f == DateField ==> form == old(form).(date := value)
      ensures step == old(step) && requests == old(requests)
    {
      match f
      case TitleField => form := form.(title := value);
      case DescriptionField => form := form.(description := value);
      case DateField => form := form.(date := value);
    }

    /** `handleTypeSelect`: the type is stored and the basic-info card follows. */
    method SelectEventType(kind: string)
      modifies this
      ensures form == old(form).(kind := kind) && step == BasicInfo
      ensures requests == old(requests) && isEditing == old(isEditing)
    {
      form := form.(kind := kind);
      step := BasicInfo;
    }

    /** `handleImageUpload`: the local preview shows at once; the cover is set
        only when the upload succeeds. */
    method UploadCover(objectUrl: string, upload: Result<string>)
      modifies this
      ensures previewUrl == Some(objectUrl) && !loading
      ensures upload.Ok? ==> form == old(form).(coverImage := Some(upload.value))
      ensures upload.Err? ==> form == old(form)
      ensures step == old(step) && requests == old(requests)
    {
      previewUrl := Some(objectUrl);
      loading := true;
      if upload.Ok? {
        form := form.(coverImage := Some(upload.value));
      }
      loading := false;
    }

    /** A navigation button: it moves to its target when the current card
        shows it and it is not disabled, and otherwise does nothing. */
    method Press(b: Button)
      modifies this
      ensures Target(old(step), b).Some? && !Disabled(old(step), b, form, hasExistingEvent, isEditing)
        ==> step == Target(old(step), b).value
      ensures Target(old(step), b).None? || Disabled(old(step), b, form, hasExistingEvent, isEditing)
        ==> step == old(step)
      ensures form == old(form) && requests == old(requests) && isEditing == old(isEditing)
      ensures hasExistingEvent == old(hasExistingEvent)
    {
      var t := Target(step, b);
      if t.Some? && !Disabled(step, b, form, hasExistingEvent, isEditing) {
        step := t.value;
      }
    }

    /** `handleSubmit`: an empty title or type alerts and changes nothing else;
        otherwise the request is sent, and a failure alerts and returns to the
        summary while a success waits in processing for the delay. */
    method Submit(randomText: string, remote: Result<Event>)
      modifies this
      ensures !Truthy(old(form).title) || !Truthy(old(form).kind) ==>
        alerts == old(alerts) + 1 && step == old(step) && requests == old(requests) && pending == old(pending)
      ensures Truthy(old(form).title) && Truthy(old(form).kind) ==>
        requests == old(requests) + [SubmitRequest(old(form), old(isEditing), randomText, old(currentUser))]
      ensures Truthy(old(form).title) && Truthy(old(form).kind) && remote.Err? ==>
        step == Summary && alerts == old(alerts) + 1 && pending == old(pending)
      ensures Truthy(old(form).title) && Truthy(old(form).kind) && remote.Ok? ==>
        step == Processing && alerts == old(alerts) && pending == Some(remote.value)
      ensures form == old(form) && isEditing == old(isEditing) && createdEvent == old(createdEvent)
      ensures hasExistingEvent == old(hasExistingEvent)
    {
      if !Truthy(form.title) || !Truthy(form.kind) {
        alerts := alerts + 1;
        return;
      }
      step := Processing;
      requests := requests + [SubmitRequest(form, isEditing, randomText, currentUser)];
      if remote.Err? {
        alerts := alerts + 1;
        step := Summary;
      } else {
        pending := Some(remote.value);
      }
    }

    /** The submit button on the summary card, disabled for an owner who
        already has an event and is not editing. */
    method PressSubmit(randomText: string, remote: Result<Event>)
      modifies this
      ensures old(step) != Summary || (old(hasExistingEvent) && !old(isEditing)) ==>
        step == old(step) && requests == old(requests) && alerts == old(alerts)
      ensures (old(step) == Summary && !(old(hasExistingEvent) && !old(isEditing))
               && Truthy(old(form).title) && Truthy(old(form).kind)) ==>
        requests == old(requests) + [SubmitRequest(old(form), old(isEditing), randomText, old(currentUser))]
      ensures form == old(form) && isEditing == old(isEditing)
    {
      if step != Summary || (hasExistingEvent && !isEditing) {
        return;
      }
      Submit(randomText, remote);
    }

    /** The processing delay has passed: the saved event is shown on the
        success card. */
    method DelayElapsed()
      modifies this
      ensures old(pending).Some? ==> createdEvent == old(pending) && step == Success && pending == None
      ensures old(pending).None? ==> createdEvent == old(createdEvent) && step == old(step)
      ensures form == old(form) && requests == old(requests)
    {
      if pending.Some? {
        createdEvent := pending;
        step := Success;
        pending := None;
      }
    }
  }

  /** An owner who already has an event and is not editing can neither leave
      the welcome card nor submit. */
  lemma {:induction false} ExistingOwnerBlocked(form: FormData)
    ensures Disabled(Welcome, Start, form, true, false)
    ensures forall s, b :: Target(s, b) == Some(SelectType) ==> s == Welcome && b == Start
  {
  }

  /** The basic-info card cannot be left forward with an empty title. */
  lemma {:induction false} TitleRequired(form: FormData, hasExistingEvent: bool, isEditing: bool)
    requires form.title == ""
    ensures Disabled(BasicInfo, Continue, form, hasExistingEvent, isEditing)
  {
  }
}
