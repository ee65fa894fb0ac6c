# Avatar bot: session state machine and composition arithmetic

A model of `bot.py`, a Telegram bot that turns a user's photo into an avatar.
The user presses a menu button to choose an overlay mode:

- day off;
- vacation, with or without a date;
- one of three business-trip time zones.

The user may then type a date, and then sends a photo. The bot crops the photo
to a centred square and resizes it to 1280×1280. It lays the mode's overlay
file on top and, in vacation mode with a date, draws the caption
"Till <date>" with a drop shadow. It sends the result as `avatar.png` and
forgets the user's session.

The model has seven modules:

- `Wrappers`: `Option`, and a map lookup (`dict.get`).
- `Text`: Python's `str.strip()`, with exactly the characters `str.isspace()`
  accepts.
- `Geometry`: the crop box, the 1280 canvas, the centred caption column and
  the caption row.
- `Composition`: a picture as its size, its origin and the list of operations
  applied to it. It holds the overlay path, the caption text and the whole
  pipeline (`Render`).
- `Handlers`: the three handlers as pure transitions over the two dictionaries
  `user_state` and `user_temp_data`, with the replies they send.
- `Bot`: the class `SessionStore` that owns the two dictionaries. Its methods
  update them in place and are proved against the functions of `Handlers`.
  The method `ProcessUpload` models the `try` block of the photo handler and
  `ComposeAvatar` its picture-building lines.
- `Scenarios`: multi-step conversations stated on the transition functions.

Two behaviours of the code are worth knowing:

- A missing overlay file returns before the session reset, so the user's mode
  and date survive (`Scenarios.OverlayMissingKeepsSession`).
- A date is stored as typed, only stripped, and never checked: " 15.13\n" is
  stored as "15.13" (`Scenarios.InvalidMonthStored`).

Every choice id other than `business_trip` and `vacation_with_date` becomes
the mode as it is. That includes the three time-zone ids and any id no button
offers.

The download, the decoding, the existence of the overlay file, the sizes PIL
reports, the measured caption width and any later exception are parameters
(`Handlers.Environment`).

## Model

| member | source | states |
|---|---|---|
| Bot.SessionStore.constructor | bot.py:16-17 | both dictionaries start empty, and the store is consistent |
| Bot.SessionStore.ButtonHandler | bot.py:38-50 | the dictionaries become `AfterSelection` of the old ones, the reply is `SelectionReply`, and every stored date keeps a stored mode |
| Bot.SessionStore.TextHandler | bot.py:52-61 | the dictionaries become `AfterText` of the old ones, the reply is `TextReply` of the old state, and consistency is kept |
| Bot.SessionStore.ImageHandler | bot.py:63-135 | the dictionaries become `AfterPhoto` of the old ones, the messages are `PhotoReplies` of `PhotoOutcome`, and consistency is kept |
| Bot.ProcessUpload | bot.py:71-129 | the way the `try` block ends is exactly `ProcessPhoto`: not an image, a caught exception, a missing overlay, or the rendered avatar |
| Bot.ComposeAvatar | bot.py:84-118 | the picture built step by step is `Render` of the photo size, the mode, the overlay size, the stored date and the caption width |
| Wrappers.Get | bot.py:54 | `dict.get`: a value exactly when the key is present, and then the stored value |
| Handlers.SelectedState | bot.py:43-49 | no new state exactly for `business_trip`; `vacation_waiting_date` for `vacation_with_date`; the id itself for every other id |
| Handlers.AfterSelection | bot.py:43-50 | dates untouched; `business_trip` changes nothing; `vacation_with_date` sets the waiting state; any other id becomes the mode; no other user's mode changes; consistency kept |
| Handlers.SelectionReply | bot.py:43-50 | the time-zone menu exactly when the state is left alone, the date prompt exactly for `vacation_with_date`, the photo prompt exactly when the id became the mode |
| Handlers.AfterText | bot.py:54-58 | while waiting for a date, the mode becomes `vacation` and the stripped text is stored; the dictionaries change if and only if the user was waiting; consistency kept |
| Handlers.TextReply | bot.py:56-61 | "Thanks!" exactly when the text changed the dictionaries, the /start hint otherwise |
| Handlers.FreshSessionHasNoDate | bot.py:38-50 | in a consistent store a user with no mode has no date, so the first choice of a new session finds none |
| Handlers.Teardown | bot.py:131-133 | the user has no entry in either dictionary, every other user keeps both entries, consistency kept |
| Handlers.TeardownIdempotent | bot.py:132-133 | a second teardown changes nothing |
| Handlers.IsImageMime | bot.py:74 | undefined exactly when the MIME type is unset; otherwise true exactly when it starts with `image/` |
| Handlers.StoredDate | bot.py:103-104 | a date exactly when the user has a temp record, and then that record's date |
| Handlers.ProcessPhoto | bot.py:71-129 | never "no session"; not an image exactly when there is no photo and no `image/*` document; a missing overlay, naming the mode, exactly when an image decodes and its overlay file does not exist; a caught exception exactly when the MIME type is unset, the image does not decode, or a step after the existence check raises; an avatar exactly when an image decodes, the overlay exists and nothing later raises, and then it is `Render` of those inputs |
| Handlers.PhotoOutcome | bot.py:65-69 | no session exactly when the mode is absent or empty; otherwise the `try` block's outcome for the stored mode and date |
| Handlers.AfterPhoto | bot.py:63-133 | teardown exactly on the terminal outcomes, avatar sent or exception caught; the early returns leave both dictionaries as they were; other users untouched; consistency kept |
| Handlers.PhotoReplies | bot.py:67-135 | two messages ending with "Want to try again?" exactly on the terminal outcomes, the avatar document or the error notice first; one message on the early returns: the /start hint with no session, the image request for a non-image, the mode's name for a missing overlay |
| Text.TrimLeft | bot.py:58 | a suffix of the input whose dropped prefix is all whitespace and which does not start with whitespace |
| Text.TrimRight | bot.py:58 | a prefix of the input whose dropped suffix is all whitespace and which does not end with whitespace |
| Text.Strip | bot.py:58 | a stripped string is no longer than the input and neither starts nor ends with whitespace |
| Text.StripIsInfix | bot.py:58 | a stripped string is the piece of the input after its leading whitespace, with only whitespace around it |
| Text.StripPadded | bot.py:58 | whitespace added on either side does not change the stripped form |
| Text.StripRecovers | bot.py:58 | whitespace around a string with no edge whitespace is exactly what strip removes |
| Text.StripIdempotent | bot.py:58 | stripping twice is stripping once |
| Text.StripAllSpace | bot.py:58 | an all-whitespace text strips to the empty string |
| Geometry.CenteredSquare | bot.py:84-91 | the crop box lies within the image |
| Geometry.CenteredSquareIsCentred | bot.py:84-91 | the crop box is a square of side `min(w, h)`, and its right (bottom) margin is the left (top) one or one pixel more |
| Geometry.LandscapeCrop | bot.py:84-91 | a landscape photo keeps its full height and a band of `h` columns starting at column `(w - h) // 2` |
| Geometry.PortraitCrop | bot.py:84-91 | a portrait photo keeps its full width and a band of `w` rows starting at row `(h - w) // 2` |
| Geometry.CropOf2000By1000 | bot.py:84-91 | a 2000 by 1000 photo keeps columns 500 to 1500 |
| Geometry.CenteredX | bot.py:115 | the space right of the text is the space left of it, or one pixel more, also for text wider than the picture |
| Geometry.CaptionY | bot.py:116 | the largest row `y` with `y <= 0.78 * height` |
| Geometry.CaptionRowOnCanvas | bot.py:116 | on the 1280 canvas the caption row is 998 |
| Composition.ResizeTo | bot.py:92 | the resized picture has the requested size, keeps its origin and records the resize |
| Composition.AlphaComposite | bot.py:100 | the composite keeps the base's size and origin and records the overlay laid on top |
| Composition.Draw | bot.py:117-118 | drawing text keeps the size and origin and records the text, its position and its colour |
| Composition.CropTo | bot.py:86-91 | the cropped picture has the box's size and records the crop |
| Composition.OverlayPath | bot.py:94 | the path is `overlays/`, the mode, `.png`, thirteen characters longer than the mode |
| Composition.OverlayPathRoundTrip | bot.py:94 | the mode can be read back from its overlay path |
| Composition.OverlayPathInjective | bot.py:94 | two different modes never share an overlay file |
| Composition.Caption | bot.py:112 | the caption starts with `Till ` and is five characters longer than the date |
| Composition.CaptionRoundTrip | bot.py:112 | the date can be read back from its caption |
| Composition.CaptionFor | bot.py:102-112 | a caption exactly in mode `vacation` with a non-empty stored date, and then it is `Till <date>` |
| Composition.Normalize | bot.py:84-92 | the photo is cropped to the centred square, then resized to 1280 by 1280 |
| Composition.FittedOverlay | bot.py:94-99 | the overlay is the mode's file, resized to the base picture's size |
| Composition.DrawCaption | bot.py:113-118 | drawing the caption keeps the size and adds two steps after the ones before |
| Composition.Render | bot.py:84-118 | the avatar is 1280 by 1280 and comes from the user's photo, whatever the photo's and the overlay's sizes |
| Composition.RenderOrder | bot.py:86-102 | crop, then resize, then the composite of the mode's overlay at canvas size; nothing more exactly when there is no caption |
| Composition.RenderCaption | bot.py:112-118 | with a caption: the black shadow at `(x + 2, y + 2)`, then the white text at `(x, y)`, with `x` centred and `y` 998 |
| Scenarios.SuccessfulPhoto | bot.py:65-125 | with a session and nothing failing, the photo is answered with the rendered avatar |
| Scenarios.OfferedChoicesArmPhoto | bot.py:43-50 | after any offered button except `business_trip`, a photo is never answered with "choose avatar type first" |
| Scenarios.TimeZoneFlow | bot.py:43-50 | `business_trip` then a time zone: the zone id is the mode, and the avatar has that overlay and no caption |
| Scenarios.DateCaptured | bot.py:45-58 | after `vacation_with_date` and a text, the mode is `vacation` and the date is the stripped text |
| Scenarios.DatedVacationFlow | bot.py:45-118 | the dated vacation ends with the captioned avatar "Till <date>" and no session left |
| Scenarios.UnvalidatedDate | bot.py:58 | any text padded with whitespace is stored whole as the date, whatever it says |
| Scenarios.InvalidMonthStored | bot.py:58 | " 15.13\n" is stored as "15.13" |
| Scenarios.BlankDateFlow | bot.py:58-105 | a blank date is stored empty, and the avatar gets the vacation overlay and no caption |
| Scenarios.StaleDateFlow | bot.py:43-58 | a date survives any later choice: after "Vacation (no date)" the old date is still the caption |
| Scenarios.PhotoWhileWaitingForDate | bot.py:94-102 | a photo sent while a date is awaited is composed in mode `vacation_waiting_date`, without a caption |
| Scenarios.OverlayMissingKeepsSession | bot.py:94-97 | for a user with a mode, a decoded image whose overlay file does not exist ends with the mode's name, leaves both dictionaries as they were, and the next photo behaves as if the first was never sent |
| Scenarios.TeardownOnTerminal | bot.py:127-135 | on every terminal path the user's entries are gone, other users keep theirs, and "Want to try again?" follows |
| Scenarios.DayOffFlow | bot.py:48-50 | `day_off` then a photo: the `overlays/day_off.png` overlay and no caption |

## Left out

- Telegram: the update objects, keyboards, `start`, `query.answer()`,
  `reply_*`, file download and the async plumbing are I/O. Replies are values
  of the datatype `Handlers.Reply`. Keyboards and markup are not sent.
- `query.data` is a string; Telegram's possible `None` for callback data is
  not modelled.
- Which updates reach which handler (`main`'s filters) is not modelled.
  `image_handler` is modelled for any message, photo or not.
- PIL pixel work is not modelled: decoding, `convert("RGBA")`, resampling,
  alpha blending, rasterising text and PNG encoding. A picture keeps only its
  size, its origin and the ordered list of operations.
- Decoding the photo and the size PIL reports for it are the parameter
  `Environment.photo`. The photo is None when the download or the decoding
  raises.
- Font loading and its fallback, and `textbbox`, are not modelled. The
  caption width is the parameter `Environment.textWidth`.
- `os.path.exists` is the flag `Environment.overlayExists`. The overlay's size
  on disk is a parameter too.
- Exceptions raised after the existence check are the single flag
  `Environment.laterFailure`: opening the overlay, compositing, drawing,
  encoding, sending.
- Geometry.CaptionY: `int(height * 0.78)` is floating point. The model uses
  `height * 78 // 100`, which agrees at the only height that occurs, 1280
  (row 998).
- Logging, `error_handler`, `main` and the token are configuration and I/O.
- Concurrency is not modelled: handlers run one at a time, in any order of
  users.
- Geometry.CenteredSquare: PIL's requirement that an image has a positive
  size is not imposed, so sizes are any natural numbers.
