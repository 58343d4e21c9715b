/**
  The home screen's three pieces of logic: the greeting for the hour of the
  day, the first name it greets, and when the empty-plans prompt shows.
 */
module Home {
  import opened Wrappers
  import opened Text

  const Morning := "Günaydın"
  const Daytime := "İyi Günler"
  const Evening := "İyi Akşamlar"

  /** `getGreeting`, the hour read from the clock given as `hour`. */
  function Greeting(hour: int): (greeting: string)
    ensures greeting == Morning <==> 5 <= hour < 12
    ensures greeting == Daytime <==> 12 <= hour < 18
    ensures greeting == Evening <==> hour < 5 || hour >= 18
  {
    if hour >= 5 && hour < 12 then Morning
    else if hour >= 12 && hour < 18 then Daytime
    else Evening
  }

  /** Each hour of the day gets one of the three greetings, and exactly one. */
  lemma GreetingPartition(hour: int)
    requires 0 <= hour < 24
    ensures var g := Greeting(hour);
      (g == Morning && (5 <= hour <= 11)) ||
      (g == Daytime && (12 <= hour <= 17)) ||
      (g == Evening && (hour <= 4 || hour >= 18))
  {
  }

  /**
    `fullName.split(' ')[0]`: the name up to its first space, or the whole name
    when it has none.
   */
  function FirstName(fullName: string): (first: string)
    ensures |first| <= |fullName| && first == fullName[..|first|]
    ensures ' ' !in first
    ensures |first| == |fullName| || fullName[|first|] == ' '
  {
    Split(fullName, ' ')[0]
  }

  /** A name and a surname: the greeting uses the name. */
  lemma FirstNameOfFullName(name: string, rest: string)
    requires ' ' !in name
    ensures FirstName(name + " " + rest) == name
  {
    SplitCons(name, rest, ' ');
  }

  /** A name without a space is greeted in full. */
  lemma FirstNameOfSingleName(name: string)
    requires ' ' !in name
    ensures FirstName(name) == name
  {
  }

  /** The part of the profile this screen reads: the name, and how many plans the list holds, if it came at all. */
  datatype HomeProfile = HomeProfile(fullName: string, planCount: Option<nat>)

  /**
    `profile?.paymentPlans?.length === 0 && !showOptions`: the prompt and its
    arrow show for a loaded profile with an empty plan list while the options
    menu is closed.
   */
  function ShowEmptyState(profile: Option<HomeProfile>, showOptions: bool): (show: bool)
    ensures show <==> profile.Some? && profile.value.planCount == Some(0) && !showOptions
  {
    match profile
    case None => false
    case Some(p) =>
      match p.planCount
      case None => false
      case Some(n) => n == 0 && !showOptions
  }

  /** Opening the options menu always hides the prompt; before the profile has loaded it never shows. */
  lemma EmptyStateHidden(profile: Option<HomeProfile>)
    ensures !ShowEmptyState(profile, true)
    ensures !ShowEmptyState(None, false)
  {
  }
}
