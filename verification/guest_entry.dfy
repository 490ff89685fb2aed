/** The name-entry page: a guest enters (or arrives with) an event code, then a
    display name; the page stores the guest identity for that code and sends
    the guest on to the feed. */
module GuestEntry {
  import opened Common
  import opened Entities
  import GuestStorage
  import EventFeed

  datatype Step = CodeStep | NameStep

  const MissingCode: string := "נא להזין קוד אירוע"
  const UnknownCode: string := "קוד אירוע לא קיים"
  const LookupFailed: string := "שגיאה בבדיקת הקוד. נסה שוב."
  const MissingName: string := "נא להזין שם"
  const SaveFailed: string := "שגיאה בשמירת הפרטים. נסה שוב."
  /** The code field's `maxLength`. */
  const MaxCodeLength: nat := 10

  /** A generated guest id has the shape `guest_<time>_<random>`. */
  predicate IsGuestId(id: string) { IsPrefix("guest_", id) }

  /** Writing a non-empty name and a generated id under a code satisfies the
      feed's identity check for that code, so the feed lets the guest in. */
  lemma {:induction false} IdentityPassesFeedCheck(items: map<string, string>, code: string, name: string, id: string)
    requires name != "" && IsGuestId(id)
    ensures var items' := items[GuestStorage.NameKey(code) := name][GuestStorage.IdKey(code) := id];
      GuestStorage.HasIdentity(items', code)
      && EventFeed.NameEntryRedirect(Some(code), items') == None
  {
    GuestStorage.KeysDistinct(code, code);
  }

  /** Without that identity the feed sends the guest back here, for the same code. */
  lemma {:induction false} MissingIdentityReturnsHere(items: map<string, string>, code: string)
    requires code != ""
    requires GuestStorage.NameKey(code) !in items
    ensures EventFeed.NameEntryRedirect(Some(code), items) == Some(Redirect("GuestEntry", Some(code)))
  {
  }

  class Entry {
    var eventCode: string
    var guestName: string
    var step: Step
    var loading: bool
    var error: string
    /** The codes looked up in the event store, in order. */
    var lookups: seq<string>
    /** Guest records created in the remote store. */
    var guestRecords: seq<GuestRecord>
    var redirect: Option<Redirect>

    /** A `code` query parameter skips the code step. */
    constructor (urlCode: Option<string>)
      ensures Present(urlCode) ==> eventCode == urlCode.value && step == NameStep
      ensures !Present(urlCode) ==> eventCode == "" && step == CodeStep
      ensures guestName == "" && !loading && error == "" && lookups == [] && guestRecords == [] && redirect == None
    {
      if Present(urlCode) {
        eventCode, step := urlCode.value, NameStep;
      } else {
        eventCode, step := "", CodeStep;
      }
      guestName, loading, error := "", false, "";
      lookups, guestRecords, redirect := [], [], None;
    }

    /** The code field accepts at most `MaxCodeLength` characters and
        upper-cases what is typed, so a typed code is never longer than that
        and never holds a lower-case letter (a code taken from the URL is kept
        as it is). */
    method SetEventCode(typed: string)
      modifies this
      ensures |eventCode| == Min(|typed|, MaxCodeLength)
      ensures eventCode == Upper(typed[..|eventCode|])
      ensures forall i :: 0 <= i < |eventCode| ==> !('a' <= eventCode[i] <= 'z')
      ensures step == old(step) && guestName == old(guestName) && lookups == old(lookups)
    {
      eventCode := Upper(typed[..Min(|typed|, MaxCodeLength)]);
    }

    method SetGuestName(name: string)
      modifies this
      ensures guestName == name
      ensures step == old(step) && eventCode == old(eventCode) && lookups == old(lookups)
    {
      guestName := name;
    }

    /** Checking the entered code against the events with that code. */
    method ValidateCode(found: Result<seq<Event>>)
      modifies this
      ensures IsBlank(old(eventCode)) ==>
        error == MissingCode && lookups == old(lookups) && step == old(step) && loading == old(loading)
      ensures !IsBlank(old(eventCode)) ==> lookups == old(lookups) + [old(eventCode)] && !loading
      ensures !IsBlank(old(eventCode)) && found.Ok? && found.value == [] ==>
        error == UnknownCode && step == old(step)
      ensures !IsBlank(old(eventCode)) && found.Ok? && found.value != [] ==>
        error == "" && step == NameStep
      ensures !IsBlank(old(eventCode)) && found.Err? ==> error == LookupFailed && step == old(step)
      ensures eventCode == old(eventCode) && guestName == old(guestName)
      ensures guestRecords == old(guestRecords) && redirect == old(redirect)
    {
      if IsBlank(eventCode) {
        error := MissingCode;
        return;
      }
      loading, error := true, "";
      lookups := lookups + [eventCode];
      if found.Err? {
        error := LookupFailed;
      } else if found.value == [] {
        error := UnknownCode;
      } else {
        step := NameStep;
      }
      loading := false;
    }

    /** Saving the guest: the two storage keys for the entered code are written
        before the remote record is created, so a failed create leaves them
        behind and redirects nowhere. The guest id and avatar colour are the
        generated values. */
    method HandleSubmit(store: GuestStorage.Store, found: Result<seq<Event>>,
                        guestId: string, avatarColor: string, created: bool)
      requires IsGuestId(guestId) && avatarColor in AvatarColors
      modifies this, store
      ensures eventCode == old(eventCode) && guestName == old(guestName) && step == old(step)
      ensures IsBlank(old(guestName)) ==>
        error == MissingName && store.items == old(store.items) && lookups == old(lookups)
        && guestRecords == old(guestRecords) && redirect == old(redirect) && loading == old(loading)
      ensures !IsBlank(old(guestName)) ==> lookups == old(lookups) + [old(eventCode)] && !loading
      ensures !IsBlank(old(guestName)) && (found.Err? || found.value == []) ==>
        store.items == old(store.items) && guestRecords == old(guestRecords) && redirect == old(redirect)
        && error == (if found.Err? then SaveFailed else UnknownCode)
      ensures !IsBlank(old(guestName)) && found.Ok? && found.value != [] ==>
        store.items == old(store.items)[GuestStorage.NameKey(eventCode) := guestName][GuestStorage.IdKey(eventCode) := guestId]
      ensures !IsBlank(old(guestName)) && found.Ok? && found.value != [] && created ==>
        guestRecords == old(guestRecords) + [GuestRecord(Some(found.value[0].id), guestName, guestId, avatarColor)]
        && redirect == Some(Redirect("EventFeed", Some(eventCode))) && error == ""
      ensures !IsBlank(old(guestName)) && found.Ok? && found.value != [] && !created ==>
        guestRecords == old(guestRecords) && redirect == old(redirect) && error == SaveFailed
      ensures redirect != old(redirect) ==> GuestStorage.HasIdentity(store.items, eventCode)
    {
      if IsBlank(guestName) {
        error := MissingName;
        return;
      }
      loading, error := true, "";
      lookups := lookups + [eventCode];
      if found.Err? {
        error := SaveFailed;
        loading := false;
        return;
      }
      if found.value == [] {
        error := UnknownCode;
        loading := false;
        return;
      }
      var event := found.value[0];
      store.SetItem(GuestStorage.NameKey(eventCode), guestName);
      store.SetItem(GuestStorage.IdKey(eventCode), guestId);
      if created {
        guestRecords := guestRecords + [GuestRecord(Some(event.id), guestName, guestId, avatarColor)];
        IdentityPassesFeedCheck(old(store.items), eventCode, guestName, guestId);
        redirect := Some(Redirect("EventFeed", Some(eventCode)));
      } else {
        error := SaveFailed;
      }
      loading := false;
    }
  }
}
