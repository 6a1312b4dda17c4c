/** Window dimensions and the options record every plugin window is opened with. */
module UiConstants {
  import opened Wrappers

  /** The dimensions shared by every plugin window. */
  datatype WindowSize = WindowSize(width: int, height: int)

  /** The options passed to the host when a window is shown; `title` is absent unless set. */
  datatype WindowOptions = WindowOptions(width: int, height: int, themeColors: bool, title: Option<string>)

  const StandardWindowSize := WindowSize(640, 800)

  /** The standard size with theme colours on and no title. */
  const StandardWindowOptions := WindowOptions(StandardWindowSize.width, StandardWindowSize.height, true, None)

  /**
   * The standard options, plus a `title` entry when the argument is a non-empty
   * string: spreading `title && { title }` adds nothing for `undefined` or "".
   */
  function GetWindowOptions(title: Option<string>): (r: WindowOptions)
    ensures r.width == 640 && r.height == 800 && r.themeColors
    ensures r.title.Some? <==> title.Some? && title.value != ""
    ensures r.title.Some? ==> r.title == title
  {
    if title.Some? && title.value != "" then StandardWindowOptions.(title := title)
    else StandardWindowOptions
  }

  /** Two calls differ at most in their title: everything else is the standard record. */
  lemma WindowOptionsDifferOnlyInTitle(a: Option<string>, b: Option<string>)
    ensures GetWindowOptions(a).(title := None) == StandardWindowOptions
    ensures GetWindowOptions(a).(title := None) == GetWindowOptions(b).(title := None)
  {
  }
}
