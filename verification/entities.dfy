/** The records the app reads from and writes to its hosted entity store.
    A string field the store may leave out is the empty string; a field the
    app sets to `null` is an `Option`. */
module Entities {
  import opened Common

  /** The administrators' list queries ask the store for the newest rows
      first (`-created_date`) and at most `PageSize` of them. */
  const NewestFirst: string := "-created_date"
  const PageSize: nat := 100

  /** What `list('-created_date', PageSize)` answers from a table that is
      kept newest first: its first `PageSize` rows, in order. */
  function NewestPage<T>(table: seq<T>): (r: seq<T>)
    ensures |r| == Min(|table|, PageSize)
    ensures r == table[..|r|]
  {
    if |table| <= PageSize then table else table[..PageSize]
  }

  /** Fractional face position inside a photo. */
  datatype BoundingBox = BoundingBox(x: real, y: real, width: real, height: real)

  datatype Event = Event(
    id: string,
    title: string,
    kind: string,
    date: string,
    description: string,
    coverImage: Option<string>,
    code: string,
    ownerEmail: string)

  /** A guest-submitted item; `kind` is "photo", "video", "text" or "voice". */
  datatype Post = Post(
    id: string,
    eventId: string,
    kind: string,
    mediaUrl: string,
    caption: string,
    guestName: string,
    guestId: Option<string>,
    momentType: string)

  /** A named occurrence of a detected face on one post. */
  datatype FaceTag = FaceTag(
    postId: string,
    eventId: string,
    personName: string,
    faceId: string,
    box: BoundingBox)

  /** The guest identity record mirrored to the store; `eventId` is `null` when
      the camera saves a name without an event code. */
  datatype GuestRecord = GuestRecord(eventId: Option<string>, name: string, guestId: string, avatarColor: string)

  datatype Refund = Refund(date: string, reason: string)

  /** A manual payment awaiting or having received review; `status` is
      "pending", "approved" or "rejected". */
  datatype Payment = Payment(
    id: string,
    userEmail: string,
    amount: real,
    paymentMethod: string,
    transactionId: string,
    status: string,
    refund: Option<Refund>)

  /** An account as listed on the user-management screen. */
  datatype User = User(
    id: string,
    fullName: string,
    email: string,
    status: string,
    suspensionReason: Option<string>,
    plan: string)

  /** The avatar colours a new guest record picks from. */
  const AvatarColors: seq<string> := [
    "bg-red-500", "bg-blue-500", "bg-green-500", "bg-purple-500",
    "bg-pink-500", "bg-indigo-500", "bg-yellow-500", "bg-teal-500"]

  /** Where a handler sends the browser: a page name and an optional `code` query parameter. */
  datatype Redirect = Redirect(page: string, code: Option<string>)
}
