/** Properties that connect the state machine to the two renderers, and
    end-to-end runs from the initial snapshot. */
module Scenarios {
  import opened Wrappers
  import opened Snapshot
  import opened Text
  import opened Fold
  import MainView
  import Render

  /** Before any message arrives, both renderers show the CLI-missing alert
      over the initial 50 by 50 screen. */
  lemma InitialScreens()
    ensures MainView.View(InitModel()) == MainView.AlertBox(Screen(50, 50), CliMissingMessage)
    ensures Render.Content(InitModel()) == Render.AlertBox(Screen(50, 50), CliMissingMessage)
  {
  }

  /** Whatever the snapshot, a failed CLI lookup switches both renderers to
      the alert, which no other field can override. */
  lemma MissingTool(m: Model, e: string)
    ensures MainView.View(Update(m, CliPathError(e)).model) == MainView.AlertBox(m.screen, CliMissingMessage)
    ensures Render.Content(Update(m, CliPathError(e)).model) == Render.AlertBox(m.screen, CliMissingMessage)
  {
  }

  /** The probe's outcome alone decides whether a fetch starts and whether
      the alert is shown. */
  lemma ProbeDecidesScreen(m: Model, lookup: Result<string, string>)
    ensures Update(m, ProbeOutcome(lookup)).cmd.Fetch? <==> lookup.Success?
    ensures Update(m, ProbeOutcome(lookup)).cmd.Fetch? ==> Update(m, ProbeOutcome(lookup)).cmd.path == lookup.value
    ensures Render.Content(Update(m, ProbeOutcome(lookup)).model).AlertBox? <==> lookup.Failure?
    ensures lookup.Success? ==> Render.Content(Update(m, ProbeOutcome(lookup)).model) == Render.Plain(LoadingText)
  {
  }

  /** A fetch's edges reach the snapshot as their titles, in edge order, and
      a failure reaches it as its description. */
  lemma FetchReachesSnapshot(m: Model, response: Result<seq<Edge>, string>)
    ensures response.Success? ==>
      && |Update(m, FetchOutcome(response)).model.notifications| == |response.value|
      && forall i :: 0 <= i < |response.value| ==>
           Update(m, FetchOutcome(response)).model.notifications[i] == response.value[i].node.title
    ensures response.Failure? ==>
      Update(m, FetchOutcome(response)).model.notificationsErr == Some(response.error)
    ensures !Update(m, FetchOutcome(response)).model.loadingNotifications
  {
  }

  /** A successful load does not hide an earlier error: both renderers keep
      showing it. */
  lemma ErrorSurvivesReload(m: Model, e: string, titles: seq<string>)
    requires m.githubCliFound && m.notificationsErr == Some(e)
    ensures Render.Content(Update(m, NotificationsLoaded(titles)).model) == Render.Plain(ErrorText(e))
    ensures MainView.View(Update(m, NotificationsLoaded(titles)).model).text == ErrorText(e)
  {
  }

  /** A failed fetch followed by any key other than a quit key: the key
      changes nothing and the error line is shown. */
  lemma FailureThenKey(m: Model, e: string, key: string)
    requires m.githubCliFound && !IsQuitKey(key)
    ensures Run(m, [NotificationsError(Some(e)), Key(key)]).model == Update(m, NotificationsError(Some(e))).model
    ensures Run(m, [NotificationsError(Some(e)), Key(key)]).cmds == [NoCmd, NoCmd]
    ensures Render.Content(Run(m, [NotificationsError(Some(e)), Key(key)]).model) == Render.Plain(ErrorText(e))
  {
    var msgs := [NotificationsError(Some(e)), Key(key)];
    var m1 := Update(m, msgs[0]).model;
    assert msgs[1..] == [Key(key)];
    assert [Key(key)][1..] == [];
    assert Run(m1, [Key(key)]).model == Update(m1, Key(key)).model == m1;
  }

  /** The startup run: the CLI is found, one fetch is issued for its path,
      one notification arrives, and the listing shows it highlighted. */
  lemma HappyPath()
    ensures var t := Run(InitModel(), [CliPath("/usr/bin/gh"), NotificationsLoaded(["Build failed"])]);
      && t.cmds == [Fetch("/usr/bin/gh"), NoCmd]
      && t.model.githubCliFound && t.model.githubCliPath == "/usr/bin/gh"
      && !t.model.loadingNotifications
      && t.model.notifications == ["Build failed"]
      && Render.RowsText(Render.Content(t.model).lines) == "> Build failed\n"
      && MainView.View(t.model).text == "Build failed"
  {
    var msgs := [CliPath("/usr/bin/gh"), NotificationsLoaded(["Build failed"])];
    assert msgs[1..] == [NotificationsLoaded(["Build failed"])];
    var t := Run(InitModel(), msgs);
    assert t.model.activeItem == 0;
    var lines := Render.Content(t.model).lines;
    assert lines[0] == Render.Notification("Build failed", 0, t.model);
    assert lines[0].text == "> Build failed";
    assert Render.Texts(lines) == ["> Build failed"];
    assert Render.Texts(lines)[1..] == [];
  }

  /** main.go's Update never touches the later fields, so on every run from
      the initial snapshot the theme stays light and the first notification
      is the highlighted one. */
  lemma FirstLineHighlightedWhenReachable(msgs: seq<Msg>)
    requires Select(Run(InitModel(), msgs).model) == Listing
    ensures Render.Content(Run(InitModel(), msgs).model).lines[0].treatment
         == Render.Highlighted(Render.Blue)
    ensures forall i :: 1 <= i < |Run(InitModel(), msgs).model.notifications| ==>
      Render.Content(Run(InitModel(), msgs).model).lines[i].treatment
        == Render.Dimmed(Render.BrightBlue)
  {
  }

  /** The two renderers agree on the branch, and outside the listing on
      the text. */
  lemma RenderersAgree(m: Model)
    ensures MainView.View(m).AlertBox? <==> Render.Content(m).AlertBox?
    ensures Render.Content(m).Plain? ==> Render.Content(m).text == MainView.View(m).text
  {
  }

  /** In the listing both renderers show the same titles line by line;
      view.go puts a two-character marker in front of each and ends every
      line with a line break. */
  lemma ListingsAgree(m: Model)
    requires Select(m) == Listing && AllNewlineFree(m.notifications)
    ensures |Split(MainView.View(m).text)| == |m.notifications|
    ensures |Split(Render.RowsText(Render.Content(m).lines))| == |m.notifications| + 1
    ensures forall i :: 0 <= i < |m.notifications| ==>
      Split(Render.RowsText(Render.Content(m).lines))[i]
        == (if i == m.activeItem then Render.ActiveMarker else Render.InactiveMarker)
           + Split(MainView.View(m).text)[i]
  {
    MainView.ListingIsOneLinePerTitle(m);
    Render.ListingLines(m);
  }

  /** After a resize the content region takes up what the header and the
      footer leave of the new height. */
  lemma ResizeSetsContentHeight(m: Model, w: int, h: int, headerHeight: nat, footerHeight: nat, footerWidth: nat)
    ensures Render.App(Update(m, WindowSize(w, h)).model, headerHeight, footerHeight, footerWidth).contentHeight
         == h - headerHeight - footerHeight
  {
  }
}
