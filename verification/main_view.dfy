/** The earlier renderer, `View` in main.go (main.go:121-149): the whole
    screen is one centred, bordered box. Styling is opaque; a frame records
    which box is drawn, at what size, around which text. */
module MainView {
  import opened Wrappers
  import opened Snapshot
  import opened Text

  datatype Frame =
    | AlertBox(screen: Screen, message: string)     // ShowErrorMessage
    | FullScreenBox(screen: Screen, text: string)   // FullScreenBox(m.screen).Render(s)

  function View(m: Model): (f: Frame)
    ensures f.screen == m.screen
    ensures f.AlertBox? <==> Select(m) == CliMissing
    ensures f.AlertBox? ==> f.message == CliMissingMessage
    ensures Select(m) == Loading ==> f.text == LoadingText
    ensures Select(m) == Failed ==> f.text == ErrorText(m.notificationsErr.value)
    ensures Select(m) == Empty ==> f.text == NoNotificationsText
    ensures Select(m) == Listing ==> f.text == Join(m.notifications, "\n")
  {
    if !m.githubCliFound then AlertBox(m.screen, CliMissingMessage)
    else
      var s :=
        if m.loadingNotifications then LoadingText
        else if m.notificationsErr.Some? then ErrorText(m.notificationsErr.value)
        else if |m.notifications| == 0 then NoNotificationsText
        else Join(m.notifications, "\n");
      FullScreenBox(m.screen, s)
  }

  /** In the listing, the box text has one line per notification title, in
      order, and nothing else. */
  lemma ListingIsOneLinePerTitle(m: Model)
    requires Select(m) == Listing
    requires AllNewlineFree(m.notifications)
    ensures Split(View(m).text) == m.notifications
  {
    SplitJoin(m.notifications);
  }
}
