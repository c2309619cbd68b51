# prbox presentation core in Dafny

prbox is a terminal dashboard that lists a user's unread GitHub notification
threads. Its core is an event-driven presentation loop. The state machine
(`Update`, main.go) folds one message at a time into an immutable snapshot
and may return a command for the runtime to run. A renderer turns a snapshot
into text. There are two renderers: `View` in main.go draws one full-screen
box, and `content`/`App` in view.go draw a header, a content region and a
footer.

The model is purely functional:

- `Snapshot` (snapshot.dfy) holds the snapshot datatype `Model`, `InitModel`,
  the fixed texts, and `Select`, which names the body a snapshot calls for.
  `Model` is the superset of main.go's `model` and the two fields view.go
  reads: `darkMode` and `activeItem`. Notifications are kept by title.
  An error is kept as the description `%v` prints for it.
- `Fold` (fold.dfy) holds messages and commands as tagged datatypes. Commands
  are `NoCmd`, `Probe`, `Fetch(path)` and `Quit`. It also holds `Update`,
  the pure parts of the two commands (`ProbeOutcome`, `FetchOutcome`,
  `Titles`), and `Run`, a fold over a sequence of messages.
- `MainView` (main_view.dfy) is main.go's `View`.
- `Render` (render.dfy) is view.go: the theme colours, the per-notification
  line, `Content`, the string-builder loop (`WriteRows`), `Layout` and `App`.
  Styles are opaque. A line records its text and whether it is highlighted
  or dimmed, and in which colour. Measured heights are parameters.
- `Text` (text.dfy) holds `strings.Join`, newline-terminated concatenation,
  and a `strings.Split` on `"\n"`. These are used to state what the rendered
  text reads as line by line.
- `Scenarios` (scenarios.dfy) relates the state machine to both renderers
  and holds the end-to-end runs.

Behaviour of the code worth knowing when reading the model:

- Loading notifications does not set `activeItem` and does not clear an
  earlier error (main.go:84-86).
- Startup issues only the CLI probe. There is no background-colour probe.
- The only keys handled are the quit keys. There are no navigation,
  open-in-browser or background-colour messages.
- `activeItem` and `darkMode` therefore keep their Go zero values, 0 and
  false, on every run from the initial snapshot.
- view.go's `App` always wraps the content in the layout, even the
  full-screen CLI-missing alert.

## Model

| member | source | states |
|---|---|---|
| Snapshot.InitModel | main.go:62-66 | the starting snapshot has a 50×50 screen, no CLI found, nothing loading, no notifications, no error, light theme, active item 0 |
| Snapshot.Select | main.go:132-146 | the five bodies are disjoint and chosen by priority: a missing CLI overrides everything; then loading overrides an error and an empty list; then an error overrides an empty list; then an empty list gives the empty text; a non-empty list gives the listing |
| Snapshot.ErrorText | main.go:141 | the error line is the fixed prefix followed by the error's description; it can be read back and never equals the loading or empty texts |
| Fold.CommandFor | main.go:72-114 | only a CLI-path message emits a fetch, and it is for that message's path; only "q" or "ctrl+c" emits Quit; every other message emits nothing |
| Fold.Update | main.go:72-114 | field-by-field effect of every message, each with a "nothing else changes" frame condition. Resize sets the screen to (width, height). CLI-path sets found, path and loading. CLI-path-error clears found. Loaded clears loading and sets the titles. Error clears loading and sets the error. Keys and unrecognised messages leave the snapshot unchanged. The command is the one `CommandFor` gives |
| Fold.Init | main.go:68-70 | startup issues the CLI probe and nothing else, whatever the snapshot |
| Fold.ProbeOutcome | main.go:51-60 | a successful lookup becomes a CLI-path message carrying that path; a failed one becomes a CLI-path-error message |
| Fold.Titles | main.go:43-46 | one title per edge, in edge order |
| Fold.FetchOutcome | main.go:36-48 | a failed query becomes an error message with its description; a successful one becomes a loaded message with the edges' titles |
| Fold.Run | main.go:72-114 | folding messages one at a time emits exactly one command per message, and each command is determined by its message alone; darkMode and activeItem are never changed |
| Fold.CommandIgnoresSnapshot | main.go:72-114 | the command a message triggers does not depend on the snapshot |
| Fold.ResizeCommutes | main.go:74-76 | a resize commutes with every message other than another resize |
| Fold.ErrorIsSticky | main.go:84-89 | over any run without a notifications-error message, the error stays what it was; a successful load does not clear it |
| Fold.LoadingUntouched | main.go:72-114 | over a run with no CLI-path, loaded or error message, the loading flag keeps its value |
| Fold.LoadingFollowsLastFetchEvent | main.go:77-89 | after a run, loading is on exactly when the last message that starts or ends a fetch is a CLI-path message (which starts one), not a loaded or error result |
| Fold.FetchUsesRecordedPath | main.go:77-81 | a fetch is issued for exactly the path the snapshot then records, with found and loading set |
| MainView.View | main.go:131-149 | without the CLI, the alert box over the whole screen; otherwise a full-screen box whose text is the loading text, the error line, the empty text or the titles joined by "\n", as `Select` orders them |
| MainView.ListingIsOneLinePerTitle | main.go:145 | for single-line titles, the listing splits back into exactly the titles, in order |
| Render.ActiveColor | view.go:43-51 | the highlight colour depends on darkMode alone (a hex colour in dark mode, the named ANSI blue in light mode) and differs from the inactive colour in both themes |
| Render.InactiveColor | view.go:53-60 | the dimmed colour depends on darkMode alone (a hex colour in dark mode, the named ANSI bright blue in light mode) |
| Render.Notification | view.go:62-70 | the line is highlighted exactly when its index is the active item; its text is "> " or "  " (matching that test) followed by the title unchanged; the colour comes from the theme |
| Render.Lines | view.go:82-86 | one line per notification, in order, line i rendered for title i at index i |
| Render.Content | view.go:72-88 | the alert exactly when the CLI is missing, whatever the other fields; then the loading text, the error line and the empty text in `Select`'s order; the listing exactly when the list is non-empty and nothing earlier applies |
| Render.WriteRows | view.go:82-86 | the builder loop leaves every line's text followed by "\n"; for single-line titles it holds exactly as many line breaks as notifications |
| Render.ListingLines | view.go:82-86 | for single-line titles the listing reads back as one line per notification, in order, line i being "> " + title exactly when i is the active item and "  " + title otherwise, followed by the empty piece after the final break |
| Render.AtMostOneHighlighted | view.go:62-70 | no two lines are highlighted; some line is highlighted exactly when the active item is an index of the list |
| Render.ThemeOnlyRecolours | view.go:62-70 | toggling darkMode keeps the selected body, every plain text, every line text and which line is highlighted |
| Render.Layout | view.go:28-39 | the content height is what the header and the footer leave: header + content + footer equals the screen height, and the content height is non-negative exactly when the header and the footer fit |
| Render.App | view.go:90-93 | the layout's body is the content body, and the three region heights add up to the screen height |
| Scenarios.InitialScreens | main.go:62-66 | before any message arrives, both renderers show the CLI-missing alert over a 50×50 screen |
| Scenarios.MissingTool | main.go:82-83 | after a CLI-path error both renderers show the alert, whatever the snapshot was |
| Scenarios.ProbeDecidesScreen | main.go:51-60 | a fetch starts, for the found path, exactly when the lookup succeeds; the alert is shown exactly when it fails, and otherwise the loading text |
| Scenarios.FetchReachesSnapshot | main.go:36-48 | a successful fetch stores the edges' titles in edge order, a failed one stores its description, and either ends loading |
| Scenarios.ErrorSurvivesReload | main.go:84-86 | a load after an error leaves both renderers showing the error line |
| Scenarios.FailureThenKey | main.go:87-94 | after a failed fetch, a non-quit key changes nothing, emits nothing, and the error line stays on screen |
| Scenarios.HappyPath | main.go:77-86 | CLI found then one notification: one fetch for "/usr/bin/gh", then nothing; the listing body is "> Build failed\n" and main.go's box text is "Build failed" |
| Scenarios.FirstLineHighlightedWhenReachable | view.go:62-70 | on every run from the initial snapshot, the listing highlights the first line in ANSI blue and dims the others in bright blue |
| Scenarios.RenderersAgree | view.go:72-80 | main.go's View and view.go's content choose the same branch, and outside the listing show the same text |
| Scenarios.ListingsAgree | view.go:82-86 | in the listing, line i of view.go's body is the marker followed by line i of main.go's box text; view.go has one extra empty piece after its final line break |
| Scenarios.ResizeSetsContentHeight | view.go:33-35 | after a resize to height h, the content region is h minus the header and footer heights |

## Left out

- The GraphQL clients (client.go, github/client.go) are left out. They marshal a request, spawn `gh api graphql`, and unmarshal its output. This is I/O and foreign-library code. `FetchOutcome` takes the query's result as a parameter.
- `exec.LookPath` in `CheckIfGithubCliInstalled` is left out because it is process I/O. `ProbeOutcome` takes the lookup's result as a parameter.
- `main()` and the bubbletea program runner are left out because they are the runtime event loop and process exit. `Run` only folds messages. It does not stop after a Quit command.
- lipgloss styling is left out: borders, bold, alignment, width/height measurement, `JoinVertical` and ANSI escape output. Styled output is represented by the frame and line datatypes. `RowsText` is the listing's text with styling removed.
- Render.Layout: the header and footer heights and the footer width are parameters rather than measured. When the content height is negative, what lipgloss draws is not modelled.
- Navigation (up/down/jump), open-in-browser and background-colour messages are left out because the code has none of them. The navigation cases in main.go:95-109 are commented out.
- Go's `error` values are modelled by their description string. A `notificationsError` carrying a nil error is `NotificationsError(None)`, which clears the stored error, as the Go assignment does.
- main.go and view.go cannot compile together: both declare `style`, `boxStyle` and `errorTitle`. They are modelled as two separate renderers over one superset snapshot.
