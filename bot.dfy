/**
 * The bot's session store as the program keeps it: two dictionaries updated
 * in place by the three handlers.  Each handler is proved to leave the
 * dictionaries exactly as the matching function of module Handlers says, and
 * to keep every stored date attached to a stored mode.
 */
module Bot {
  import opened Wrappers
  import opened Geometry
  import opened Composition
  import opened Text
  import opened Handlers

  class SessionStore {
    var userState: map<UserId, string>
    var userTempData: map<UserId, TempData>

    /** The two dictionaries as one value. */
    function Snapshot(): Sessions
      reads this
    {
      Sessions(userState, userTempData)
    }

    ghost predicate Valid()
      reads this
    {
      Consistent(Snapshot())
    }

    /** At start-up both dictionaries are empty. */
    constructor ()
      ensures Valid()
      ensures userState == map[] && userTempData == map[]
    {
      userState := map[];
      userTempData := map[];
    }

    /** `button_handler` for user `u` pressing the button with id `choice`. */
    method ButtonHandler(u: UserId, choice: string) returns (reply: Reply)
      modifies this
      ensures Snapshot() == AfterSelection(old(Snapshot()), u, choice)
      ensures reply == SelectionReply(choice)
      ensures old(Valid()) ==> Valid()
    {
      if choice == BusinessTrip {
        reply := ChooseTimeZone;
      } else if choice == VacationWithDate {
        userState := userState[u := WaitingDate];
        reply := AskDate;
      } else {
        userState := userState[u := choice];
        reply := AskPhoto;
      }
    }

    /** `text_handler` for user `u` sending `text`. */
    method TextHandler(u: UserId, text: string) returns (reply: Reply)
      modifies this
      ensures Snapshot() == AfterText(old(Snapshot()), u, text)
      ensures reply == TextReply(old(Snapshot()), u)
      ensures old(Valid()) ==> Valid()
    {
      var currentState := Get(userState, u);
      if currentState == Some(WaitingDate) {
        userState := userState[u := Vacation];
        userTempData := userTempData[u := TempData(Strip(text))];
        reply := ThanksAskPhoto;
      } else {
        reply := ChooseTypeFirst;
      }
    }

    /**
     * `image_handler` for user `u` sending `m`; `env` stands for what the
     * downloads, PIL and the file system report.
     */
    method ImageHandler(u: UserId, m: Upload, env: Environment) returns (replies: seq<Reply>)
      modifies this
      ensures Snapshot() == AfterPhoto(old(Snapshot()), u, m, env)
      ensures replies == PhotoReplies(PhotoOutcome(old(Snapshot()), u, m, env))
      ensures old(Valid()) ==> Valid()
    {
      var overlayType := Get(userState, u);
      if overlayType == None || overlayType == Some("") {
        return [ChooseTypeFirst];
      }
      var outcome := ProcessUpload(overlayType.value, StoredDate(Snapshot(), u), m, env);
      match outcome {
        case NotAnImage =>
          return [SendImageFile];
        case OverlayMissing(mode) =>
          return [OverlayNotFound(mode)];
        case Delivered(avatar) =>
          replies := [AvatarDocument(avatar, AvatarFileName)];
        case Failed =>
          replies := [ProcessingError];
        case NoSession =>
          assert false;
      }

      // both terminal paths forget the user
      userState := userState - {u};
      userTempData := userTempData - {u};

      replies := replies + [TryAgain];
    }
  }

  /**
   * The `try` block of `image_handler`, run for a user in the non-empty mode
   * `mode` with `date` stored; it only reads.  `failed` records that an
   * exception was raised in the block and caught.
   */
  method ProcessUpload(mode: string, date: Option<string>, m: Upload, env: Environment) returns (outcome: Outcome)
    ensures outcome == ProcessPhoto(mode, date, m, env)
  {
    var failed := false;
    if !m.hasPhoto {
      if m.document.None? {
        return NotAnImage;
      }
      var isImage := IsImageMime(m.document.value);
      if isImage == Some(false) {
        return NotAnImage;
      }
      failed := isImage.None?;
    }
    if !failed && env.photo.None? {
      failed := true;
    }
    if failed {
      return Failed;
    }

    // os.path.exists(OverlayPath(mode)), checked after decoding and before the overlay is opened
    if !env.overlayExists {
      return OverlayMissing(mode);
    }
    if env.laterFailure {
      return Failed;
    }
    var (width, height) := env.photo.value;
    var avatar := ComposeAvatar(width, height, mode, env.overlayWidth, env.overlayHeight, date, env.textWidth);
    outcome := Delivered(avatar);
  }

  /**
   * Lines of the `try` block that build the picture: crop to the centred
   * square, resize to the canvas, lay the overlay resized to the same size on
   * top, then draw the caption in vacation mode when a non-empty date is stored.
   */
  method ComposeAvatar(width: nat, height: nat, mode: string, overlayWidth: nat, overlayHeight: nat,
                       date: Option<string>, textWidth: nat) returns (combined: Picture)
    ensures combined == Render(width, height, mode, overlayWidth, overlayHeight, date, textWidth)
  {
    var box := CenteredSquare(width, height);
    var userImg := CropTo(Picture(width, height, UserPhoto, []), box);
    userImg := ResizeTo(userImg, Canvas, Canvas);

    var overlayPath := OverlayPath(mode);
    var overlay := ResizeTo(Picture(overlayWidth, overlayHeight, OverlayFile(overlayPath), []),
                            userImg.width, userImg.height);
    combined := AlphaComposite(userImg, overlay);
    if mode == Vacation {
      if date.Some? && date.value != "" {
        var text := Caption(date.value);
        var x := CenteredX(combined.width, textWidth);
        var y := CaptionY(combined.height);
        combined := Draw(combined, x + ShadowOffset, y + ShadowOffset, text, Black);
        combined := Draw(combined, x, y, text, White);
      }
    }
  }
}
