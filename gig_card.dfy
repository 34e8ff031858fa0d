/** The listing card of a gig: its link, the urgency badge and the poster's
    avatar and name with their fallbacks. Times are integer milliseconds. */
module Card {
  import opened Types
  import opened Text

  /** One day in milliseconds. */
  const DayMs: int := 24 * 60 * 60 * 1000

  /** A gig is urgent when less than a day remains before its deadline; the
      lemmas below say what that means over time. */
  function IsUrgent(deadlineMs: int, nowMs: int): bool {
    deadlineMs - nowMs < DayMs
  }

  /** A gig whose deadline has passed stays urgent. */
  lemma PastDeadlineIsUrgent(deadlineMs: int, nowMs: int)
    requires deadlineMs <= nowMs
    ensures IsUrgent(deadlineMs, nowMs)
  {
  }

  /** Urgency only starts as time passes: once urgent, a gig stays urgent. */
  lemma UrgencyPersists(deadlineMs: int, nowMs: int, laterMs: int)
    requires IsUrgent(deadlineMs, nowMs) && nowMs <= laterMs
    ensures IsUrgent(deadlineMs, laterMs)
  {
  }

  /** The detail page the card links to. */
  function CardHref(gigId: Id): string {
    "/gigs/" + gigId
  }

  /** The link leads into the gig routes, and the route's last segment is the
      gig id, so the detail page recovers exactly the gig the card shows. */
  lemma CardHrefNamesGig(gigId: Id)
    requires '/' !in gigId
    ensures BeforeFirst(CardHref(gigId), '/') == "" && BeforeFirst(CardHref(gigId)[1..], '/') == "gigs"
    ensures AfterLast(CardHref(gigId), '/') == gigId
  {
    assert CardHref(gigId) == "/gigs" + ['/'] + gigId;
    AfterLastOfJoin("/gigs", '/', gigId);
    assert CardHref(gigId)[1..] == "gigs" + ['/'] + gigId;
    BeforeFirstOfJoin("gigs", '/', gigId);
  }

  datatype Avatar = Image(src: string) | Initial(letter: string)

  /** The poster's picture when the joined profile has a non-empty avatar URL;
      otherwise a badge with the first character of the name, or "U" when the
      profile is missing or its name is empty. */
  function AvatarOf(profile: Option<User>): (a: Avatar)
    ensures a.Image? <==> profile.Some? && profile.value.avatarUrl.Some? && profile.value.avatarUrl.value != ""
    ensures a.Image? ==> a.src == profile.value.avatarUrl.value
    ensures a.Initial? ==> |a.letter| == 1
    ensures a.Initial? && profile.Some? && profile.value.fullName != "" ==> a.letter[0] == profile.value.fullName[0]
    ensures a.Initial? && (profile.None? || profile.value.fullName == "") ==> a.letter == "U"
  {
    if profile.Some? && profile.value.avatarUrl.Some? && profile.value.avatarUrl.value != "" then
      Image(profile.value.avatarUrl.value)
    else if profile.Some? && profile.value.fullName != "" then
      Initial([profile.value.fullName[0]])
    else
      Initial("U")
  }

  /** The poster's name, or "Unknown User" when the profile is missing or its name is empty. */
  function DisplayedName(profile: Option<User>): (r: string)
    ensures r != ""
    ensures profile.Some? && profile.value.fullName != "" ==> r == profile.value.fullName
    ensures profile.None? || profile.value.fullName == "" ==> r == "Unknown User"
  {
    if profile.Some? && profile.value.fullName != "" then profile.value.fullName else "Unknown User"
  }

  /** The initial badge and the displayed name agree: the badge shows the
      first character of the displayed name unless that name is the fallback. */
  lemma InitialMatchesDisplayedName(profile: Option<User>)
    requires AvatarOf(profile).Initial?
    ensures DisplayedName(profile) != "Unknown User" ==> AvatarOf(profile).letter == [DisplayedName(profile)[0]]
    ensures DisplayedName(profile) == "Unknown User" ==> AvatarOf(profile).letter == "U"
  {
  }
}
