/** The message-fold state machine of main.go: the messages the runtime
    delivers, the commands a transition asks the runtime to run, and `Update`,
    which folds one message into a snapshot. Commands are descriptions, not
    closures: `Fetch(path)` stands for FetchNotifications(path) and `Probe`
    for CheckIfGithubCliInstalled(). */
module Fold {
  import opened Wrappers
  import opened Snapshot

  datatype Msg =
    | WindowSize(width: int, height: int)      // tea.WindowSizeMsg
    | CliPath(path: string)                    // githubCliPath
    | CliPathError(error: string)              // githubCliPathError
    | NotificationsLoaded(titles: seq<string>) // notificationsLoaded
    | NotificationsError(err: Option<string>)  // notificationsError; Go assigns its err as is
    | Key(key: string)                         // tea.KeyMsg, by its String() name
    | Unrecognised                             // any other message type

  datatype Cmd = NoCmd | Probe | Fetch(path: string) | Quit

  datatype Step = Step(model: Model, cmd: Cmd)

  predicate IsQuitKey(key: string) {
    key == "q" || key == "ctrl+c"
  }

  /** The command a message triggers. It depends on the message alone, never
      on the snapshot it is folded into. */
  function CommandFor(msg: Msg): (c: Cmd)
    ensures c.Fetch? <==> msg.CliPath?
    ensures c.Fetch? ==> c.path == msg.path
    ensures c == Quit <==> msg.Key? && IsQuitKey(msg.key)
    ensures !c.Probe?
  {
    match msg
    case CliPath(path) => Fetch(path)
    case Key(key) => if IsQuitKey(key) then Quit else NoCmd
    case _ => NoCmd
  }

  /** The transition table (main.go:72-114). */
  function Update(m: Model, msg: Msg): (r: Step)
    ensures r.cmd == CommandFor(msg)
    ensures msg.WindowSize? ==>
      && r.model.screen == Screen(msg.width, msg.height)
      && SameExcept(m, r.model, {ScreenField})
    ensures msg.CliPath? ==>
      && r.model.githubCliFound && r.model.githubCliPath == msg.path
      && r.model.loadingNotifications
      && SameExcept(m, r.model, {CliFoundField, CliPathField, LoadingField})
    ensures msg.CliPathError? ==>
      !r.model.githubCliFound && SameExcept(m, r.model, {CliFoundField})
    ensures msg.NotificationsLoaded? ==>
      && !r.model.loadingNotifications && r.model.notifications == msg.titles
      && SameExcept(m, r.model, {LoadingField, NotificationsField})
    ensures msg.NotificationsError? ==>
      && !r.model.loadingNotifications && r.model.notificationsErr == msg.err
      && SameExcept(m, r.model, {LoadingField, ErrField})
    ensures msg.Key? || msg.Unrecognised? ==> r.model == m
  {
    match msg
    case WindowSize(w, h) =>
      Step(m.(screen := Screen(w, h)), NoCmd)
    case CliPath(path) =>
      var m' := m.(githubCliPath := path, githubCliFound := true, loadingNotifications := true);
      Step(m', Fetch(m'.githubCliPath))
    case CliPathError(_) =>
      Step(m.(githubCliFound := false), NoCmd)
    case NotificationsLoaded(titles) =>
      Step(m.(loadingNotifications := false, notifications := titles), NoCmd)
    case NotificationsError(err) =>
      Step(m.(loadingNotifications := false, notificationsErr := err), NoCmd)
    case Key(key) =>
      if IsQuitKey(key) then Step(m, Quit) else Step(m, NoCmd)
    case Unrecognised =>
      Step(m, NoCmd)
  }

  /** Init (main.go:68-70): the only startup command is the CLI probe,
      whatever the snapshot. */
  function Init(m: Model): (c: Cmd)
    ensures c == Probe
  {
    Probe
  }

  /** The message CheckIfGithubCliInstalled turns a path lookup into
      (main.go:51-60); the lookup itself is a parameter. */
  function ProbeOutcome(lookup: Result<string, string>): (msg: Msg)
    ensures msg.CliPath? <==> lookup.Success?
    ensures msg.CliPath? ==> msg.path == lookup.value
    ensures msg.CliPathError? <==> lookup.Failure?
  {
    match lookup
    case Success(path) => CliPath(path)
    case Failure(e) => CliPathError(e)
  }

  /** One notification thread as the query returns it (title, URL and the
      anchor of its oldest unread item); only the title is used here. */
  datatype Thread = Thread(title: string, url: string, oldestUnreadAnchor: string)

  datatype Edge = Edge(node: Thread)

  /** The title-collecting loop of FetchNotifications (main.go:43-46): one
      title per edge, appended in edge order. */
  function Titles(edges: seq<Edge>): (titles: seq<string>)
    ensures |titles| == |edges|
    ensures forall i :: 0 <= i < |edges| ==> titles[i] == edges[i].node.title
  {
    if edges == [] then []
    else Titles(edges[..|edges| - 1]) + [edges[|edges| - 1].node.title]
  }

  /** The message the fetch command resolves to (main.go:36-48); the query
      call is a parameter, given as its edges or its error description. */
  function FetchOutcome(response: Result<seq<Edge>, string>): (msg: Msg)
    ensures response.Failure? ==> msg == NotificationsError(Some(response.error))
    ensures response.Success? ==> msg.NotificationsLoaded? && msg.titles == Titles(response.value)
  {
    match response
    case Failure(e) => NotificationsError(Some(e))
    case Success(edges) => NotificationsLoaded(Titles(edges))
  }

  datatype Trace = Trace(model: Model, cmds: seq<Cmd>)

  /** Folds a sequence of messages one at a time, collecting each step's
      command, as the runtime delivers them. */
  function Run(m: Model, msgs: seq<Msg>): (t: Trace)
    ensures |t.cmds| == |msgs|
    ensures forall i :: 0 <= i < |msgs| ==> t.cmds[i] == CommandFor(msgs[i])
    ensures t.model.darkMode == m.darkMode && t.model.activeItem == m.activeItem
    decreases |msgs|
  {
    if msgs == [] then Trace(m, [])
    else
      var s := Update(m, msgs[0]);
      var rest := Run(s.model, msgs[1..]);
      Trace(rest.model, [s.cmd] + rest.cmds)
  }

  /** The command half of a transition does not read the snapshot. */
  lemma CommandIgnoresSnapshot(a: Model, b: Model, msg: Msg)
    ensures Update(a, msg).cmd == Update(b, msg).cmd
  {
  }

  /** A resize commutes with every message other than another resize. */
  lemma ResizeCommutes(m: Model, w: int, h: int, msg: Msg)
    requires !msg.WindowSize?
    ensures Update(Update(m, WindowSize(w, h)).model, msg).model
         == Update(Update(m, msg).model, WindowSize(w, h)).model
  {
  }

  /** Once set, the error stays: only another notifications-error message
      replaces it; a later successful load does not clear it. */
  lemma {:induction false} ErrorIsSticky(m: Model, msgs: seq<Msg>)
    requires forall i :: 0 <= i < |msgs| ==> !msgs[i].NotificationsError?
    ensures Run(m, msgs).model.notificationsErr == m.notificationsErr
    decreases |msgs|
  {
    if msgs != [] {
      ErrorIsSticky(Update(m, msgs[0]).model, msgs[1..]);
    }
  }

  /** The messages that start or end a fetch. */
  predicate TouchesLoading(msg: Msg) {
    msg.CliPath? || msg.NotificationsLoaded? || msg.NotificationsError?
  }

  /** Messages that neither start nor end a fetch leave the loading flag alone. */
  lemma {:induction false} LoadingUntouched(m: Model, msgs: seq<Msg>)
    requires forall j :: 0 <= j < |msgs| ==> !TouchesLoading(msgs[j])
    ensures Run(m, msgs).model.loadingNotifications == m.loadingNotifications
    decreases |msgs|
  {
    if msgs != [] {
      LoadingUntouched(Update(m, msgs[0]).model, msgs[1..]);
    }
  }

  /** Loading is on after a run exactly when the last message that starts or
      ends a fetch is the one that starts it (a found CLI path). */
  lemma {:induction false} LoadingFollowsLastFetchEvent(m: Model, msgs: seq<Msg>, k: nat)
    requires k < |msgs| && TouchesLoading(msgs[k])
    requires forall j :: k < j < |msgs| ==> !TouchesLoading(msgs[j])
    ensures Run(m, msgs).model.loadingNotifications <==> msgs[k].CliPath?
    decreases k
  {
    var next := Update(m, msgs[0]).model;
    if k == 0 {
      LoadingUntouched(next, msgs[1..]);
    } else {
      LoadingFollowsLastFetchEvent(next, msgs[1..], k - 1);
    }
  }

  /** The path a fetch is issued for is the path the snapshot then records. */
  lemma FetchUsesRecordedPath(m: Model, msg: Msg)
    requires Update(m, msg).cmd.Fetch?
    ensures Update(m, msg).cmd.path == Update(m, msg).model.githubCliPath
    ensures Update(m, msg).model.githubCliFound && Update(m, msg).model.loadingNotifications
  {
  }
}
