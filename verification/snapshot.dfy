/** The application snapshot folded by the state machine and read by the
    renderer (main.go:15-27). The later renderer (view.go) reads two fields the
    earlier snapshot lacks, `darkMode` and `activeItem`; this datatype is the
    superset of both. Notifications are kept by title only, and an error value
    by the description `%v` prints for it. */
module Snapshot {
  import opened Wrappers

  datatype Screen = Screen(width: int, height: int)

  datatype Model = Model(
    githubCliFound: bool,
    githubCliPath: string,
    screen: Screen,
    loadingNotifications: bool,
    notifications: seq<string>,
    notificationsErr: Option<string>,
    darkMode: bool,
    activeItem: int
  )

  /** The fields of a Model, for stating which ones a transition may change. */
  datatype Field =
    | CliFoundField | CliPathField | ScreenField | LoadingField
    | NotificationsField | ErrField | DarkModeField | ActiveItemField

  /** `a` and `b` hold the same value in field `f`. */
  predicate AgreeOn(a: Model, b: Model, f: Field) {
    match f
    case CliFoundField => a.githubCliFound == b.githubCliFound
    case CliPathField => a.githubCliPath == b.githubCliPath
    case ScreenField => a.screen == b.screen
    case LoadingField => a.loadingNotifications == b.loadingNotifications
    case NotificationsField => a.notifications == b.notifications
    case ErrField => a.notificationsErr == b.notificationsErr
    case DarkModeField => a.darkMode == b.darkMode
    case ActiveItemField => a.activeItem == b.activeItem
  }

  /** `b` differs from `a` at most in the fields listed in `changed`. */
  predicate SameExcept(a: Model, b: Model, changed: set<Field>) {
    forall f :: f !in changed ==> AgreeOn(a, b, f)
  }

  /** The starting snapshot: a 50 by 50 screen and every other field at its
      Go zero value. */
  function InitModel(): (m: Model)
    ensures m.screen == Screen(50, 50)
    ensures !m.githubCliFound && !m.loadingNotifications
    ensures m.notifications == [] && m.notificationsErr == None
    ensures m.githubCliPath == "" && !m.darkMode && m.activeItem == 0
  {
    Model(false, "", Screen(50, 50), false, [], None, false, 0)
  }

  /** Which body a snapshot calls for. Both renderers test the same
      conditions in the same first-match order (main.go:132-146,
      view.go:73-87); this is that order stated as five disjoint cases. */
  datatype Branch = CliMissing | Loading | Failed | Empty | Listing

  function Select(m: Model): (b: Branch)
    ensures b == CliMissing <==> !m.githubCliFound
    ensures b == Loading <==> m.githubCliFound && m.loadingNotifications
    ensures b == Failed <==>
      m.githubCliFound && !m.loadingNotifications && m.notificationsErr.Some?
    ensures b == Empty <==>
      m.githubCliFound && !m.loadingNotifications && m.notificationsErr.None? && m.notifications == []
    ensures b == Listing <==>
      m.githubCliFound && !m.loadingNotifications && m.notificationsErr.None? && m.notifications != []
  {
    if !m.githubCliFound then CliMissing
    else if m.loadingNotifications then Loading
    else if m.notificationsErr.Some? then Failed
    else if |m.notifications| == 0 then Empty
    else Listing
  }

  /** The fixed text of the full-screen alert shown when the GitHub CLI is missing. */
  const CliMissingMessage: string := "It looks like you don't have the GitHub CLI installed."

  const LoadingText: string := "Loading notifications..."

  const NoNotificationsText: string := "No notifications"

  const ErrorPrefix: string := "Error loading notifications: "

  /** The body shown for a failed fetch (`%v` of the error): the
      description can be read back after the fixed prefix, and the text never
      coincides with the loading or empty-list texts. */
  function ErrorText(description: string): (t: string)
    ensures |t| == |ErrorPrefix| + |description|
    ensures t[..|ErrorPrefix|] == ErrorPrefix && t[|ErrorPrefix|..] == description
    ensures t != LoadingText && t != NoNotificationsText
  {
    ErrorPrefix + description
  }
}
