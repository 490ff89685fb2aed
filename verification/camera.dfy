/** The capture screen: the guest-name prompt, the self-timer countdown, the
    shutter, and handing an uploaded photo to the feed. Canvas drawing and the
    camera stream are outside the model; taking a photo is counted. */
module Camera {
  import opened Common
  import opened Entities
  import GuestStorage

  /** The self-timer: the seconds left and whether the interval is running. */
  datatype Countdown = Countdown(seconds: nat, running: bool)

  /** One interval tick. The interval exists only while running with seconds
      left; at 1 (or less) the timer stops, hits 0 and fires the shutter. The
      boolean is whether this tick took a photo. */
  function Tick(c: Countdown): (Countdown, bool)
  {
    if !(c.running && c.seconds > 0) then (c, false)
    else if c.seconds <= 1 then (Countdown(0, false), true)
    else (Countdown(c.seconds - 1, true), false)
  }

  /** `k` ticks from `c`: the final countdown and the number of photos taken. */
  function Run(c: Countdown, k: nat): (Countdown, nat)
    decreases k
  {
    if k == 0 then (c, 0)
    else
      var (c1, shot) := Tick(c);
      var (c2, n) := Run(c1, k - 1);
      (c2, n + (if shot then 1 else 0))
  }

  /** An idle or finished timer is unaffected by ticks. */
  lemma {:induction false} IdleStays(c: Countdown, k: nat)
    requires !(c.running && c.seconds > 0)
    ensures Run(c, k) == (c, 0)
    decreases k
  {
    if k > 0 { IdleStays(c, k - 1); }
  }

  /** A countdown started from `n` seconds fires exactly once, on the `n`-th
      tick, and is then stopped at 0; before that it shows `n - k`. */
  lemma {:induction false} CountdownFiresOnce(n: nat, k: nat)
    requires n > 0
    ensures k < n ==> Run(Countdown(n, true), k) == (Countdown(n - k, true), 0)
    ensures k >= n ==> Run(Countdown(n, true), k) == (Countdown(0, false), 1)
    decreases k
  {
    if k > 0 {
      if n == 1 {
        IdleStays(Countdown(0, false), k - 1);
      } else {
        CountdownFiresOnce(n - 1, k - 1);
      }
    }
  }

  /** The timer button: off (0) becomes 3 seconds, anything else becomes off. */
  function TimerButton(seconds: nat): (r: nat)
    ensures r == 0 || r == 3
    ensures r == 0 <==> seconds != 0
  {
    if seconds == 0 then 3 else 0
  }

  /** Two presses restore the setting exactly when it was one the button produces. */
  lemma {:induction false} TimerButtonTwice(seconds: nat)
    ensures TimerButton(TimerButton(seconds)) == seconds <==> seconds == 0 || seconds == 3
  {
  }

  /** What the capture screen hands to the feed. */
  datatype Capture = Capture(kind: string, mediaUrl: string, createdDate: string, caption: string)

  /** The photo payload built from an upload result: an absent or empty
      `file_url` is an error. */
  function PhotoPayload(fileUrl: Option<string>, createdDate: string, caption: string): (r: Option<Capture>)
    ensures r.Some? <==> Present(fileUrl)
    ensures r.Some? ==> r.value.kind == "photo" && r.value.mediaUrl == fileUrl.value && r.value.caption == caption
  {
    if Present(fileUrl) then Some(Capture("photo", fileUrl.value, createdDate, caption)) else None
  }

  /** The saved name for a code, as the `guestName_${eventCode}` template reads it. */
  function SavedName(items: map<string, string>, code: Option<string>): Option<string>
  {
    GuestStorage.Lookup(items, GuestStorage.NameKey(GuestStorage.CodeText(code)))
  }

  class CameraScreen {
    const eventCode: Option<string>
    var guestName: string
    var showNamePrompt: bool
    var countdown: Countdown
    /** Shutter releases (`takePhoto` calls). */
    var shots: nat
    var capturedImage: Option<string>
    var caption: string
    var uploading: bool
    var alerts: nat
    /** Captures handed to the feed. */
    var emitted: seq<Capture>
    var closed: bool
    /** Guest records created in the remote store. */
    var guestRecords: seq<GuestRecord>

    /** Opening the screen: a saved name for the code is used; without one the
        prompt opens, but only when there is a code. */
    constructor (code: Option<string>, items: map<string, string>)
      ensures eventCode == code
      ensures Present(SavedName(items, code)) ==> guestName == SavedName(items, code).value && !showNamePrompt
      ensures !Present(SavedName(items, code)) ==> guestName == "" && (showNamePrompt <==> Present(code))
      ensures countdown == Countdown(0, false) && shots == 0 && capturedImage == None && caption == ""
      ensures !uploading && alerts == 0 && emitted == [] && !closed && guestRecords == []
    {
      eventCode := code;
      var saved := SavedName(items, code);
      if Present(saved) {
        guestName, showNamePrompt := saved.value, false;
      } else {
        guestName, showNamePrompt := "", Present(code);
      }
      countdown, shots, capturedImage, caption := Countdown(0, false), 0, None, "";
      uploading, alerts, emitted, closed, guestRecords := false, 0, [], false, [];
    }

    method SetGuestName(name: string)
      modifies this
      ensures guestName == name && showNamePrompt == old(showNamePrompt) && guestRecords == old(guestRecords)
    {
      guestName := name;
    }

    /** Saving the prompted name: a blank name does nothing; otherwise the name
        and a generated id go to storage under the same code, a guest record is
        attempted with the code itself as its event id, and the prompt closes
        whether or not that record was created. */
    method SaveGuestName(store: GuestStorage.Store, guestId: string, avatarColor: string, created: bool)
      requires guestId != "" && avatarColor in AvatarColors
      modifies this, store
      ensures IsBlank(old(guestName)) ==>
        store.items == old(store.items) && showNamePrompt == old(showNamePrompt) && guestRecords == old(guestRecords)
      ensures !IsBlank(old(guestName)) ==>
        store.items == old(store.items)[GuestStorage.NameKey(GuestStorage.CodeText(eventCode)) := guestName]
                                       [GuestStorage.IdKey(GuestStorage.CodeText(eventCode)) := guestId]
        && !showNamePrompt
        && guestRecords == old(guestRecords) + (if created then [GuestRecord(eventCode, guestName, guestId, avatarColor)] else [])
      ensures guestName == old(guestName) && countdown == old(countdown) && shots == old(shots)
    {
      if IsBlank(guestName) { return; }
      var codeText := GuestStorage.CodeText(eventCode);
      store.SetItem(GuestStorage.NameKey(codeText), guestName);
      store.SetItem(GuestStorage.IdKey(codeText), guestId);
      if created {
        guestRecords := guestRecords + [GuestRecord(eventCode, guestName, guestId, avatarColor)];
      }
      showNamePrompt := false;
    }

    method PressTimerButton()
      modifies this
      ensures countdown == Countdown(TimerButton(old(countdown.seconds)), old(countdown.running))
      ensures shots == old(shots)
    {
      countdown := Countdown(TimerButton(countdown.seconds), countdown.running);
    }

    /** The shutter: with a timer set it starts the countdown, otherwise it
        shoots at once. */
    method HandleCapture()
      modifies this
      ensures old(countdown.seconds) > 0 ==> countdown == Countdown(old(countdown.seconds), true) && shots == old(shots)
      ensures old(countdown.seconds) == 0 ==> countdown == old(countdown) && shots == old(shots) + 1
    {
      if countdown.seconds > 0 {
        countdown := Countdown(countdown.seconds, true);
      } else {
        shots := shots + 1;
      }
    }

    /** One second of the countdown interval. */
    method TimerTick()
      modifies this
      ensures countdown == Tick(old(countdown)).0
      ensures shots == old(shots) + (if Tick(old(countdown)).1 then 1 else 0)
      ensures capturedImage == old(capturedImage) && emitted == old(emitted)
    {
      if countdown.running && countdown.seconds > 0 {
        if countdown.seconds <= 1 {
          countdown := Countdown(0, false);
          shots := shots + 1;
        } else {
          countdown := Countdown(countdown.seconds - 1, true);
        }
      }
    }

    /** The end of a successful `takePhoto`: the drawn frame becomes the
        captured image. */
    method PhotoTaken(dataUrl: string)
      modifies this
      ensures capturedImage == Some(dataUrl) && emitted == old(emitted)
    {
      capturedImage := Some(dataUrl);
    }

    method SetCaption(text: string)
      modifies this
      ensures caption == text && emitted == old(emitted)
    {
      caption := text;
    }

    /** Uploading the captured image: nothing without an image; a failed
        upload or a missing `file_url` alerts and emits nothing; otherwise the
        photo capture with the caption as typed goes to the feed and the
        screen closes. */
    method UploadPhoto(upload: Result<Option<string>>, now: string)
      modifies this
      ensures old(capturedImage).None? ==> emitted == old(emitted) && alerts == old(alerts) && closed == old(closed)
      ensures old(capturedImage).Some? && (upload.Err? || !Present(upload.value)) ==>
        emitted == old(emitted) && alerts == old(alerts) + 1 && !uploading && closed == old(closed)
      ensures old(capturedImage).Some? && upload.Ok? && Present(upload.value) ==>
        emitted == old(emitted) + [Capture("photo", upload.value.value, now, caption)]
        && closed && uploading && alerts == old(alerts)
      ensures caption == old(caption) && capturedImage == old(capturedImage)
    {
      if capturedImage.None? { return; }
      uploading := true;
      var payload := if upload.Ok? then PhotoPayload(upload.value, now, caption) else None;
      if payload.None? {
        alerts := alerts + 1;
        uploading := false;
        return;
      }
      emitted := emitted + [payload.value];
      closed := true;
    }
  }
}
