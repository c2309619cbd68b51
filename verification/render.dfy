/** The later renderer of view.go: theme colours, the per-notification line,
    the first-match content body, and the header/content/footer layout.
    Styles are opaque: a line records its text and its visual treatment, and
    measured element heights are parameters. */
module Render {
  import opened Wrappers
  import opened Snapshot
  import opened Text

  /** A true-colour hex value or one of the terminal's named ANSI colours. */
  datatype Color = Hex(code: string) | Blue | BrightBlue

  /** Background of the highlighted line (view.go:43-51): a hex colour in
      dark mode, the ANSI blue otherwise. */
  function ActiveColor(darkMode: bool): (c: Color)
    ensures c.Hex? <==> darkMode
    ensures !darkMode ==> c == Blue
    ensures c != InactiveColor(darkMode)
  {
    if darkMode then Hex("#39BAE6") else Blue
  }

  /** Foreground of the other lines (view.go:53-60). */
  function InactiveColor(darkMode: bool): (c: Color)
    ensures c.Hex? <==> darkMode
    ensures !darkMode ==> c == BrightBlue
  {
    if darkMode then Hex("#BFBDB6") else BrightBlue
  }

  datatype Treatment =
    | Highlighted(background: Color)   // bold, no foreground, coloured background
    | Dimmed(foreground: Color)        // coloured foreground

  datatype Line = Line(text: string, treatment: Treatment)

  const ActiveMarker: string := "> "
  const InactiveMarker: string := "  "

  /** One notification line (view.go:62-70): the marker tells the active
      line apart, the title follows it unchanged, and the theme picks only
      the colour. */
  function Notification(title: string, index: int, m: Model): (line: Line)
    ensures line.treatment.Highlighted? <==> index == m.activeItem
    ensures |line.text| == 2 + |title| && line.text[2..] == title
    ensures line.text[..2] == (if index == m.activeItem then ActiveMarker else InactiveMarker)
    ensures line.treatment == Highlighted(ActiveColor(m.darkMode))
         || line.treatment == Dimmed(InactiveColor(m.darkMode))
  {
    if m.activeItem == index then
      Line(ActiveMarker + title, Highlighted(ActiveColor(m.darkMode)))
    else
      Line(InactiveMarker + title, Dimmed(InactiveColor(m.darkMode)))
  }

  /** The lines of the listing, one per notification, in order. */
  function Lines(m: Model): (lines: seq<Line>)
    ensures |lines| == |m.notifications|
    ensures forall i :: 0 <= i < |lines| ==> lines[i] == Notification(m.notifications[i], i, m)
  {
    seq(|m.notifications|, i requires 0 <= i < |m.notifications| => Notification(m.notifications[i], i, m))
  }

  function Texts(lines: seq<Line>): (texts: seq<string>)
    ensures |texts| == |lines|
    ensures forall i :: 0 <= i < |lines| ==> texts[i] == lines[i].text
  {
    seq(|lines|, i requires 0 <= i < |lines| => lines[i].text)
  }

  /** The text the listing writes, styling left aside: each line followed by "\n". */
  function RowsText(lines: seq<Line>): string
  {
    Terminated(Texts(lines))
  }

  datatype Body =
    | AlertBox(screen: Screen, message: string)   // showErrorMessage
    | Plain(text: string)
    | Rows(lines: seq<Line>)

  /** The content body (view.go:72-88). */
  function Content(m: Model): (b: Body)
    ensures b.AlertBox? <==> Select(m) == CliMissing
    ensures b.AlertBox? ==> b.screen == m.screen && b.message == CliMissingMessage
    ensures Select(m) == Loading ==> b == Plain(LoadingText)
    ensures Select(m) == Failed ==> b == Plain(ErrorText(m.notificationsErr.value))
    ensures Select(m) == Empty ==> b == Plain(NoNotificationsText)
    ensures b.Rows? <==> Select(m) == Listing
    ensures b.Rows? ==> b.lines == Lines(m)
  {
    if !m.githubCliFound then AlertBox(m.screen, CliMissingMessage)
    else if m.loadingNotifications then Plain(LoadingText)
    else if m.notificationsErr.Some? then Plain(ErrorText(m.notificationsErr.value))
    else if |m.notifications| == 0 then Plain(NoNotificationsText)
    else Rows(Lines(m))
  }

  /** The string-builder loop of the listing branch (view.go:82-86). */
  method WriteRows(m: Model) returns (s: string)
    ensures s == RowsText(Lines(m))
    ensures AllNewlineFree(m.notifications) ==> NewlineCount(s) == |m.notifications|
  {
    var lines := Lines(m);
    s := "";
    var i := 0;
    while i < |m.notifications|
      invariant 0 <= i <= |m.notifications|
      invariant s == Terminated(Texts(lines)[..i])
    {
      TerminatedSnoc(Texts(lines)[..i], lines[i].text);
      assert Texts(lines)[..i] + [lines[i].text] == Texts(lines)[..i + 1];
      s := s + lines[i].text + "\n";
      i := i + 1;
    }
    assert Texts(lines)[..i] == Texts(lines);
    if AllNewlineFree(m.notifications) {
      TextsNewlineFree(m);
      TerminatedLineCount(Texts(lines));
    }
  }

  /** Marking a single-line title keeps it single-line. */
  lemma TextsNewlineFree(m: Model)
    requires AllNewlineFree(m.notifications)
    ensures AllNewlineFree(Texts(Lines(m)))
  {
    var texts := Texts(Lines(m));
    forall i | 0 <= i < |texts| ensures NewlineFree(texts[i]) {
      var t := texts[i];
      assert NewlineFree(m.notifications[i]);
      forall j | 0 <= j < |t| ensures t[j] != '\n' {
        if j >= 2 { assert t[j] == t[2..][j - 2]; }
        else { assert t[j] == t[..2][j]; }
      }
    }
  }

  /** The listing reads back, line by line, as the marked titles in order:
      as many lines as notifications, then the empty rest after the final
      line break. */
  lemma ListingLines(m: Model)
    requires Select(m) == Listing
    requires AllNewlineFree(m.notifications)
    ensures |Split(RowsText(Content(m).lines))| == |m.notifications| + 1
    ensures Split(RowsText(Content(m).lines))[|m.notifications|] == ""
    ensures forall i :: 0 <= i < |m.notifications| ==>
      Split(RowsText(Content(m).lines))[i]
        == (if i == m.activeItem then ActiveMarker else InactiveMarker) + m.notifications[i]
  {
    var lines := Lines(m);
    TextsNewlineFree(m);
    SplitTerminated(Texts(lines));
    forall i | 0 <= i < |m.notifications|
      ensures lines[i].text == (if i == m.activeItem then ActiveMarker else InactiveMarker) + m.notifications[i]
    {
      var t := lines[i].text;
      assert t == t[..2] + t[2..];
    }
  }

  /** At most one line is highlighted, and one is exactly when the active
      index is a position of the list. */
  lemma AtMostOneHighlighted(m: Model)
    ensures forall i, j :: 0 <= i < j < |Lines(m)| ==>
      !(Lines(m)[i].treatment.Highlighted? && Lines(m)[j].treatment.Highlighted?)
    ensures (exists i :: 0 <= i < |Lines(m)| && Lines(m)[i].treatment.Highlighted?)
        <==> 0 <= m.activeItem < |m.notifications|
  {
    var lines := Lines(m);
    if 0 <= m.activeItem < |m.notifications| {
      assert lines[m.activeItem].treatment.Highlighted?;
    }
  }

  /** Switching the theme changes colours only: the same body kind, the same
      texts, the same line highlighted. */
  lemma ThemeOnlyRecolours(m: Model)
    ensures Select(m.(darkMode := !m.darkMode)) == Select(m)
    ensures Content(m).Plain? ==> Content(m.(darkMode := !m.darkMode)) == Content(m)
    ensures Texts(Lines(m.(darkMode := !m.darkMode))) == Texts(Lines(m))
    ensures forall i :: 0 <= i < |m.notifications| ==>
      Lines(m.(darkMode := !m.darkMode))[i].treatment.Highlighted? == Lines(m)[i].treatment.Highlighted?
  {
  }

  /** The full screen split into a header, the content and a footer
      (view.go:28-39). The measured heights of the header and the footer and
      the width of the footer are parameters. */
  datatype Frame = Frame(headerHeight: nat, contentHeight: int, footerHeight: nat, width: nat, body: Body)

  function Layout(screen: Screen, body: Body, headerHeight: nat, footerHeight: nat, footerWidth: nat): (f: Frame)
    ensures f.headerHeight + f.contentHeight + f.footerHeight == screen.height
    ensures f.contentHeight >= 0 <==> headerHeight + footerHeight <= screen.height
    ensures f.contentHeight <= screen.height
    ensures f.headerHeight == headerHeight && f.footerHeight == footerHeight
    ensures f.width == footerWidth && f.body == body
  {
    Frame(headerHeight, screen.height - headerHeight - footerHeight, footerHeight, footerWidth, body)
  }

  /** The screen of view.go (view.go:90-93): the content body inside the layout. */
  function App(m: Model, headerHeight: nat, footerHeight: nat, footerWidth: nat): (f: Frame)
    ensures f.body == Content(m)
    ensures f.headerHeight + f.contentHeight + f.footerHeight == m.screen.height
  {
    Layout(m.screen, Content(m), headerHeight, footerHeight, footerWidth)
  }
}
