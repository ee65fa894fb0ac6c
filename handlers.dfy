/**
 * The three update handlers of the bot as pure transitions over the two
 * process-wide dictionaries: `user_state` (user id to mode) and
 * `user_temp_data` (user id to `{"date": ...}`).  The class in module Bot
 * updates the same dictionaries in place and is proved against these functions.
 */
module Handlers {
  import opened Wrappers
  import opened Text
  import opened Geometry
  import opened Composition

  type UserId = int

  /** The record `{"date": text}` stored for a user. */
  datatype TempData = TempData(date: string)

  /** Both dictionaries at one moment. */
  datatype Sessions = Sessions(state: map<UserId, string>, temp: map<UserId, TempData>)

  /** Choice ids and states the handlers compare against. */
  const BusinessTrip := "business_trip"
  const VacationWithDate := "vacation_with_date"
  const WaitingDate := "vacation_waiting_date"
  const Vacation := "vacation"

  /** The ids behind the buttons of the main menu and of the time-zone sub-menu. */
  const AvatarMenu: seq<string> := ["day_off", "vacation", "vacation_with_date", "business_trip"]
  const TimeZoneMenu: seq<string> := ["business_trip_latam", "business_trip_africa", "business_trip_pakistan"]

  /** Every message the handlers send. */
  datatype Reply =
    | ChooseTimeZone              // "Choose a time zone:" with the time-zone buttons
    | AskDate                     // "Until what date? (e.g., 15.06)"
    | AskPhoto                    // "Now send me your photo."
    | ThanksAskPhoto              // "Thanks! Now send me your photo."
    | ChooseTypeFirst             // "Please choose avatar type first: /start"
    | SendImageFile               // "Please send an image file or photo."
    | OverlayNotFound(mode: string) // "Overlay '<mode>' not found."
    | AvatarDocument(picture: Picture, filename: string)
    | ProcessingError             // "An error occurred while processing your image. ..."
    | TryAgain                    // "Avatar created! Want to try again?" with the avatar menu

  /** Every user with a stored date also has a stored mode. */
  predicate Consistent(s: Sessions)
  {
    s.temp.Keys <= s.state.Keys
  }

  /** The state a menu choice leads to, or None when the choice leaves the state alone. */
  function SelectedState(choice: string): (st: Option<string>)
    ensures st.None? <==> choice == BusinessTrip
    ensures choice == VacationWithDate ==> st == Some(WaitingDate)
    ensures choice != BusinessTrip && choice != VacationWithDate ==> st == Some(choice)
  {
    if choice == BusinessTrip then None
    else if choice == VacationWithDate then Some(WaitingDate)
    else Some(choice)
  }

  /**
   * `button_handler`: `business_trip` only shows the time-zone menu;
   * `vacation_with_date` waits for a date; any other id becomes the mode as
   * it is.  The dates are never touched, and no other user's entry changes.
   */
  function AfterSelection(s: Sessions, u: UserId, choice: string): (r: Sessions)
    ensures r.temp == s.temp
    ensures choice == BusinessTrip ==> r == s
    ensures choice == VacationWithDate ==> Get(r.state, u) == Some(WaitingDate)
    ensures choice != BusinessTrip && choice != VacationWithDate ==> Get(r.state, u) == Some(choice)
    ensures forall v :: v != u ==> Get(r.state, v) == Get(s.state, v)
    ensures Consistent(s) ==> Consistent(r)
  {
    match SelectedState(choice)
    case None => s
    case Some(st) => Sessions(s.state[u := st], s.temp)
  }

  /**
   * The answer to a menu choice: the time-zone menu exactly when the state is
   * left alone, the date prompt for `vacation_with_date`, and the photo
   * prompt exactly when the choice itself became the mode.
   */
  function SelectionReply(choice: string): (r: Reply)
    ensures r == ChooseTimeZone <==> SelectedState(choice).None?
    ensures r == AskDate <==> choice == VacationWithDate
    ensures r == AskPhoto <==> SelectedState(choice) == Some(choice)
  {
    if choice == BusinessTrip then ChooseTimeZone
    else if choice == VacationWithDate then AskDate
    else AskPhoto
  }

  /**
   * `text_handler`: only a user waiting for a date changes anything; the mode
   * becomes `vacation` and the stripped text, whatever it is, is stored as the
   * date.  In every other state, and with no session, nothing changes.
   */
  function AfterText(s: Sessions, u: UserId, text: string): (r: Sessions)
    ensures Get(s.state, u) == Some(WaitingDate) ==>
      r.state == s.state[u := Vacation] && r.temp == s.temp[u := TempData(Strip(text))]
    ensures r == s <==> Get(s.state, u) != Some(WaitingDate)
    ensures Consistent(s) ==> Consistent(r)
  {
    if Get(s.state, u) == Some(WaitingDate) then
      Sessions(s.state[u := Vacation], s.temp[u := TempData(Strip(text))])
    else
      s
  }

  /** The answer to a text: thanks exactly when the text was taken as the date, the hint to /start otherwise. */
  function TextReply(s: Sessions, u: UserId): (r: Reply)
    ensures r == ThanksAskPhoto || r == ChooseTypeFirst
    ensures forall text :: r == ThanksAskPhoto <==> AfterText(s, u, text) != s
  {
    if Get(s.state, u) == Some(WaitingDate) then ThanksAskPhoto else ChooseTypeFirst
  }

  /**
   * In a consistent store a user without a mode has no date either, so the
   * first choice of a new session never finds a date left behind.
   */
  lemma FreshSessionHasNoDate(s: Sessions, u: UserId, choice: string)
    requires Consistent(s) && u !in s.state
    ensures StoredDate(AfterSelection(s, u, choice), u) == None
  {
  }

  /** `user_state.pop(u, None)` and `user_temp_data.pop(u, None)`. */
  function Teardown(s: Sessions, u: UserId): (r: Sessions)
    ensures u !in r.state && u !in r.temp
    ensures forall v :: v != u ==> Get(r.state, v) == Get(s.state, v) && Get(r.temp, v) == Get(s.temp, v)
    ensures Consistent(s) ==> Consistent(r)
  {
    Sessions(s.state - {u}, s.temp - {u})
  }

  /** `pop` with a default never fails, so a second teardown changes nothing. */
  lemma TeardownIdempotent(s: Sessions, u: UserId)
    ensures Teardown(Teardown(s, u), u) == Teardown(s, u)
  {
  }

  /** An uploaded document: its MIME type, which Telegram may leave unset. */
  datatype Document = Document(mimeType: Option<string>)

  /** A message reaching the photo handler: whether it has photo sizes, and its document. */
  datatype Upload = Upload(hasPhoto: bool, document: Option<Document>)

  /**
   * What the handler cannot compute itself: the size of the decoded photo
   * (None when the download or the decoding raises), whether the overlay file
   * exists, the overlay's size on disk, the measured width of the caption, and
   * whether anything after the existence check raises (opening the overlay,
   * compositing, measuring, drawing, encoding, sending).
   */
  datatype Environment = Environment(
    photo: Option<(nat, nat)>,
    overlayExists: bool,
    overlayWidth: nat,
    overlayHeight: nat,
    textWidth: nat,
    laterFailure: bool)

  datatype Outcome =
    | NoSession                   // no mode, or an empty one: early return
    | NotAnImage                  // neither photo nor `image/*` document: early return
    | OverlayMissing(mode: string) // early return before the reset
    | Delivered(avatar: Picture)  // success
    | Failed                      // an exception was caught

  predicate Terminal(o: Outcome)
  {
    o.Delivered? || o.Failed?
  }

  /** `message.document.mime_type.startswith("image/")`; None when `mime_type` is unset and the call raises. */
  function IsImageMime(d: Document): (r: Option<bool>)
    ensures r.None? <==> d.mimeType.None?
    ensures r.Some? ==> (r.value <==> |d.mimeType.value| >= 6 && d.mimeType.value[..6] == "image/")
  {
    match d.mimeType
    case None => None
    case Some(m) => Some("image/" <= m)
  }

  /** `user_temp_data.get(u, {}).get("date")`. */
  function StoredDate(s: Sessions, u: UserId): (d: Option<string>)
    ensures d.Some? <==> u in s.temp
    ensures d.Some? ==> d.value == s.temp[u].date
  {
    if u in s.temp then Some(s.temp[u].date) else None
  }

  /** The message carries a photo, or a document whose MIME type starts with `image/`. */
  predicate ImageInput(m: Upload)
  {
    m.hasPhoto || (m.document.Some? && IsImageMime(m.document.value) == Some(true))
  }

  /** No photo, and a document whose MIME type is unset: `.startswith` raises. */
  predicate MimeUnset(m: Upload)
  {
    !m.hasPhoto && m.document.Some? && m.document.value.mimeType.None?
  }

  /**
   * The `try` block of `image_handler` for a user in mode `mode` (not empty)
   * with `date` stored: which way it ends, and the avatar it produces.
   */
  function ProcessPhoto(mode: string, date: Option<string>, m: Upload, env: Environment): (o: Outcome)
    ensures !o.NoSession?
    ensures o.NotAnImage? <==> !m.hasPhoto && (m.document.None? || IsImageMime(m.document.value) == Some(false))
    ensures o.OverlayMissing? <==> ImageInput(m) && env.photo.Some? && !env.overlayExists
    ensures o.OverlayMissing? ==> o.mode == mode
    ensures o.Failed? <==>
      || MimeUnset(m)
      || (ImageInput(m) && env.photo.None?)
      || (ImageInput(m) && env.photo.Some? && env.overlayExists && env.laterFailure)
    ensures o.Delivered? <==> ImageInput(m) && env.photo.Some? && env.overlayExists && !env.laterFailure
    ensures o.Delivered? ==>
      o.avatar == Render(env.photo.value.0, env.photo.value.1, mode,
                         env.overlayWidth, env.overlayHeight, date, env.textWidth)
  {
    if !m.hasPhoto && (m.document.None? || IsImageMime(m.document.value) == Some(false)) then NotAnImage
    else if !m.hasPhoto && IsImageMime(m.document.value).None? then Failed
    else if env.photo.None? then Failed
    else if !env.overlayExists then OverlayMissing(mode)
    else if env.laterFailure then Failed
    else
      Delivered(Render(env.photo.value.0, env.photo.value.1, mode,
                       env.overlayWidth, env.overlayHeight, date, env.textWidth))
  }

  /** The branch `image_handler` takes: the session check, then the `try` block. */
  function PhotoOutcome(s: Sessions, u: UserId, m: Upload, env: Environment): (o: Outcome)
    ensures o.NoSession? <==> Get(s.state, u) == None || Get(s.state, u) == Some("")
    ensures !o.NoSession? ==> o == ProcessPhoto(s.state[u], StoredDate(s, u), m, env)
  {
    match Get(s.state, u)
    case None => NoSession
    case Some(mode) => if mode == "" then NoSession else ProcessPhoto(mode, StoredDate(s, u), m, env)
  }

  /**
   * The dictionaries after `image_handler`: the reset at the end runs after
   * the avatar is sent and after a caught exception, and only then; the early
   * returns (no session, not an image, overlay missing) leave both untouched.
   */
  function AfterPhoto(s: Sessions, u: UserId, m: Upload, env: Environment): (r: Sessions)
    ensures Terminal(PhotoOutcome(s, u, m, env)) ==> r == Teardown(s, u) && u !in r.state && u !in r.temp
    ensures !Terminal(PhotoOutcome(s, u, m, env)) ==> r == s
    ensures forall v :: v != u ==> Get(r.state, v) == Get(s.state, v) && Get(r.temp, v) == Get(s.temp, v)
    ensures Consistent(s) ==> Consistent(r)
  {
    if Terminal(PhotoOutcome(s, u, m, env)) then Teardown(s, u) else s
  }

  /**
   * The messages `image_handler` sends.  Both terminal paths end with the
   * "Want to try again?" menu, the failure path too; the early returns send
   * one message and no menu.
   */
  function PhotoReplies(o: Outcome): (r: seq<Reply>)
    ensures |r| == 2 && r[1] == TryAgain <==> Terminal(o)
    ensures |r| == 1 <==> !Terminal(o)
    ensures o.NoSession? ==> r == [ChooseTypeFirst]
    ensures o.NotAnImage? ==> r == [SendImageFile]
    ensures o.OverlayMissing? ==> r == [OverlayNotFound(o.mode)]
    ensures o.Delivered? ==> r[0] == AvatarDocument(o.avatar, AvatarFileName)
    ensures o.Failed? ==> r[0] == ProcessingError
  {
    match o
    case NoSession => [ChooseTypeFirst]
    case NotAnImage => [SendImageFile]
    case OverlayMissing(mode) => [OverlayNotFound(mode)]
    case Delivered(avatar) => [AvatarDocument(avatar, AvatarFileName), TryAgain]
    case Failed => [ProcessingError, TryAgain]
  }
}
