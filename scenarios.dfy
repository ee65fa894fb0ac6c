/**
 * Conversations of several steps, stated on the transition functions of
 * module Handlers: what a user sees and what is left in the dictionaries.
 * Where a conversation ends with an avatar, it is given as a `Render` term;
 * Render's contract, RenderOrder and RenderCaption of module Composition say what
 * that picture is.
 */
module Scenarios {
  import opened Wrappers
  import opened Text
  import opened Geometry
  import opened Composition
  import opened Handlers

  /** A photo message, and an environment where everything the handler asks for succeeds. */
  predicate Succeeds(m: Upload, env: Environment)
  {
    m.hasPhoto && env.photo.Some? && env.overlayExists && !env.laterFailure
  }

  /** The avatar the handler renders for `mode` and `date` when everything succeeds. */
  function Avatar(mode: string, date: Option<string>, env: Environment): Picture
    requires env.photo.Some?
  {
    Render(env.photo.value.0, env.photo.value.1, mode, env.overlayWidth, env.overlayHeight, date, env.textWidth)
  }

  /** With a session and nothing failing, the photo handler sends the rendered avatar. */
  lemma SuccessfulPhoto(s: Sessions, u: UserId, m: Upload, env: Environment)
    requires Get(s.state, u).Some? && s.state[u] != "" && Succeeds(m, env)
    ensures PhotoOutcome(s, u, m, env) == Delivered(Avatar(s.state[u], StoredDate(s, u), env))
  {
  }

  /**
   * Every button the bot offers, except `business_trip`, leaves a mode the
   * photo handler accepts: after it a photo is never answered with
   * "choose avatar type first".
   */
  lemma OfferedChoicesArmPhoto(s: Sessions, u: UserId, choice: string, m: Upload, env: Environment)
    requires choice in AvatarMenu + TimeZoneMenu && choice != BusinessTrip
    ensures !PhotoOutcome(AfterSelection(s, u, choice), u, m, env).NoSession?
  {
    assert choice != "";
  }

  /**
   * `business_trip` followed by a time-zone button: the sub-choice id becomes
   * the mode, the avatar gets that id's overlay file, and no caption.
   */
  lemma TimeZoneFlow(s: Sessions, u: UserId, zone: string, m: Upload, env: Environment)
    requires zone in TimeZoneMenu && Succeeds(m, env)
    ensures var s2 := AfterSelection(AfterSelection(s, u, BusinessTrip), u, zone);
      && Get(s2.state, u) == Some(zone)
      && PhotoOutcome(s2, u, m, env) == Delivered(Avatar(zone, StoredDate(s2, u), env))
      && CaptionFor(zone, StoredDate(s2, u)).None?
  {
    var s2 := AfterSelection(AfterSelection(s, u, BusinessTrip), u, zone);
    assert zone != "" && zone != Vacation;
    SuccessfulPhoto(s2, u, m, env);
  }

  /** After choosing the dated vacation and sending `text`, the mode is `vacation` and the date is the stripped text. */
  lemma DateCaptured(s: Sessions, u: UserId, text: string)
    ensures var s2 := AfterText(AfterSelection(s, u, VacationWithDate), u, text);
      Get(s2.state, u) == Some(Vacation) && StoredDate(s2, u) == Some(Strip(text))
  {
    var s1 := AfterSelection(s, u, VacationWithDate);
    assert Get(s1.state, u) == Some(WaitingDate);
  }

  /**
   * The dated vacation: choose it, send a date whose stripped form is not
   * empty, send a photo.  The avatar is the vacation overlay with the caption
   * "Till <stripped date>", and the user's session is gone afterwards.
   */
  lemma DatedVacationFlow(s: Sessions, u: UserId, text: string, m: Upload, env: Environment)
    requires Strip(text) != [] && Succeeds(m, env)
    ensures var s2 := AfterText(AfterSelection(s, u, VacationWithDate), u, text);
      && PhotoOutcome(s2, u, m, env) == Delivered(Avatar(Vacation, Some(Strip(text)), env))
      && CaptionFor(Vacation, Some(Strip(text))) == Some("Till " + Strip(text))
      && var s3 := AfterPhoto(s2, u, m, env);
         u !in s3.state && u !in s3.temp
  {
    var s2 := AfterText(AfterSelection(s, u, VacationWithDate), u, text);
    DateCaptured(s, u, text);
    SuccessfulPhoto(s2, u, m, env);
  }

  /**
   * The date is stored as typed, only stripped, and never checked: any text
   * with whitespace around it is kept whole, whatever it says.
   */
  lemma UnvalidatedDate(s: Sessions, u: UserId, pre: string, date: string, post: string)
    requires AllSpace(pre) && AllSpace(post)
    requires date == [] || (!IsSpace(date[0]) && !IsSpace(date[|date| - 1]))
    ensures var s2 := AfterText(AfterSelection(s, u, VacationWithDate), u, pre + date + post);
      Get(s2.state, u) == Some(Vacation) && StoredDate(s2, u) == Some(date)
  {
    StripRecovers(pre, date, post);
    DateCaptured(s, u, pre + date + post);
  }

  /** For one: " 15.13\n", a day of no month, is stored as "15.13". */
  lemma InvalidMonthStored(s: Sessions, u: UserId)
    ensures var s2 := AfterText(AfterSelection(s, u, VacationWithDate), u, " " + "15.13" + "\n");
      StoredDate(s2, u) == Some("15.13")
  {
    assert AllSpace(" ") && AllSpace("\n");
    UnvalidatedDate(s, u, " ", "15.13", "\n");
  }

  /**
   * A blank date is stored as the empty string; the photo then gets the
   * `vacation` overlay and no caption.
   */
  lemma BlankDateFlow(s: Sessions, u: UserId, text: string, m: Upload, env: Environment)
    requires AllSpace(text) && Succeeds(m, env)
    ensures var s2 := AfterText(AfterSelection(s, u, VacationWithDate), u, text);
      && StoredDate(s2, u) == Some("")
      && PhotoOutcome(s2, u, m, env) == Delivered(Avatar(Vacation, Some(""), env))
      && CaptionFor(Vacation, Some("")).None?
  {
    StripAllSpace(text);
    DateCaptured(s, u, text);
    SuccessfulPhoto(AfterText(AfterSelection(s, u, VacationWithDate), u, text), u, m, env);
  }

  /**
   * The date survives a change of mind: after a dated vacation's date, any
   * other choice and then "Vacation (no date)", the photo still gets the old
   * date as its caption, because only the reset after a photo clears it.
   */
  lemma StaleDateFlow(s: Sessions, u: UserId, text: string, other: string, m: Upload, env: Environment)
    requires Strip(text) != [] && Succeeds(m, env)
    ensures var s2 := AfterText(AfterSelection(s, u, VacationWithDate), u, text);
      var s3 := AfterSelection(AfterSelection(s2, u, other), u, Vacation);
      && PhotoOutcome(s3, u, m, env) == Delivered(Avatar(Vacation, Some(Strip(text)), env))
      && CaptionFor(Vacation, Some(Strip(text))) == Some("Till " + Strip(text))
  {
    DateCaptured(s, u, text);
    var s2 := AfterText(AfterSelection(s, u, VacationWithDate), u, text);
    var s3 := AfterSelection(AfterSelection(s2, u, other), u, Vacation);
    assert Get(s3.state, u) == Some(Vacation);
    SuccessfulPhoto(s3, u, m, env);
  }

  /**
   * A photo sent while the bot still waits for the date is not re-prompted: it
   * is composed with the overlay `overlays/vacation_waiting_date.png`, and
   * without a caption.
   */
  lemma PhotoWhileWaitingForDate(s: Sessions, u: UserId, m: Upload, env: Environment)
    requires Get(s.state, u) == Some(WaitingDate) && Succeeds(m, env)
    ensures PhotoOutcome(s, u, m, env) == Delivered(Avatar(WaitingDate, StoredDate(s, u), env))
    ensures CaptionFor(WaitingDate, StoredDate(s, u)).None?
  {
    SuccessfulPhoto(s, u, m, env);
  }

  /**
   * A missing overlay returns before the reset: mode and date stay, so the
   * same user's next photo, once the file exists, is composed in the same mode
   * and with the same caption as if the first had never been sent.
   */
  lemma OverlayMissingKeepsSession(s: Sessions, u: UserId, m: Upload, env: Environment, m2: Upload, env2: Environment)
    requires Get(s.state, u).Some? && s.state[u] != ""
    requires ImageInput(m) && env.photo.Some? && !env.overlayExists
    ensures PhotoOutcome(s, u, m, env) == OverlayMissing(s.state[u])
    ensures AfterPhoto(s, u, m, env) == s
    ensures PhotoReplies(PhotoOutcome(s, u, m, env)) == [OverlayNotFound(s.state[u])]
    ensures PhotoOutcome(AfterPhoto(s, u, m, env), u, m2, env2) == PhotoOutcome(s, u, m2, env2)
  {
  }

  /**
   * Every terminal path, the avatar sent or an exception caught, ends with
   * no record for the user and the "try again" menu; the other users keep
   * theirs.
   */
  lemma TeardownOnTerminal(s: Sessions, u: UserId, m: Upload, env: Environment)
    requires Terminal(PhotoOutcome(s, u, m, env))
    ensures var r := AfterPhoto(s, u, m, env);
      && u !in r.state && u !in r.temp
      && (forall v :: v != u ==> Get(r.state, v) == Get(s.state, v) && Get(r.temp, v) == Get(s.temp, v))
      && PhotoReplies(PhotoOutcome(s, u, m, env))[1] == TryAgain
  {
  }

  /**
   * `day_off` then a photo: the avatar gets the `day_off` overlay and no
   * caption (for a 2000 by 1000 photo, CropOf2000By1000 gives the crop).
   */
  lemma DayOffFlow(s: Sessions, u: UserId, m: Upload, env: Environment)
    requires Succeeds(m, env)
    ensures var s2 := AfterSelection(s, u, "day_off");
      && PhotoOutcome(s2, u, m, env) == Delivered(Avatar("day_off", StoredDate(s2, u), env))
      && CaptionFor("day_off", StoredDate(s2, u)).None?
      && OverlayPath("day_off") == "overlays/day_off.png"
  {
    var mode := "day_off";
    var s2 := AfterSelection(s, u, mode);
    assert |mode| != |BusinessTrip| && |mode| != |VacationWithDate| && |mode| != |Vacation|;
    assert Get(s2.state, u) == Some(mode);
    SuccessfulPhoto(s2, u, m, env);
  }
}
