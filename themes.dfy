/** Colour themes: merging a theme file's optional colours with the defaults, and the
    file-name rule for theme files (src/user/config/style/theme.rs). */
module Themes {
  import opened Wrappers

  /** An unsigned 8-bit value. */
  newtype Byte = x: int | 0 <= x < 256

  /** Terminal colours, as the theme files name them. */
  datatype Color =
    | Reset | Black | Red | Green | Yellow | Blue | Magenta | Cyan | Gray | DarkGray
    | LightRed | LightGreen | LightYellow | LightBlue | LightMagenta | LightCyan | White
    | Rgb(r: Byte, g: Byte, b: Byte)
    | Indexed(index: Byte)

  /** A complete theme: its name and eleven colours. */
  datatype Theme = Theme(
    name: string,
    bg: Color,
    main: Color,
    caret: Color,
    text: Color,
    sub: Color,
    subAlt: Color,
    error: Color,
    errorExtra: Color,
    colorfulError: Color,
    colorfulErrorExtra: Color,
    untypedLetter: Color)

  /** The contents of a theme file: every colour may be missing. */
  datatype ThemeSerializer = ThemeSerializer(
    bg: Option<Color>,
    main: Option<Color>,
    caret: Option<Color>,
    text: Option<Color>,
    sub: Option<Color>,
    subAlt: Option<Color>,
    error: Option<Color>,
    errorExtra: Option<Color>,
    colorfulError: Option<Color>,
    colorfulErrorExtra: Option<Color>,
    untypedLetter: Option<Color>)

  /** `Theme::default()`. */
  function DefaultTheme(): (t: Theme)
    ensures t.name == "default"
    ensures t.bg == Black && t.main == Yellow && t.caret == LightYellow && t.text == White
    ensures t.sub == Gray && t.subAlt == Indexed(244) && t.error == Red && t.errorExtra == LightRed
    ensures t.colorfulError == Magenta && t.colorfulErrorExtra == LightMagenta
    ensures t.untypedLetter == DarkGray
  {
    Theme(
      name := "default",
      bg := Black,
      main := Yellow,
      caret := LightYellow,
      text := White,
      sub := Gray,
      subAlt := Indexed(244),
      error := Red,
      errorExtra := LightRed,
      colorfulError := Magenta,
      colorfulErrorExtra := LightMagenta,
      untypedLetter := DarkGray)
  }

  /** True when `c` is the colour the file gives, or `fallback` when the file gives none. */
  predicate Merged(given: Option<Color>, fallback: Color, c: Color) {
    (given.Some? ==> c == given.value) && (given.None? ==> c == fallback)
  }

  /** `ThemeSerializer::theme`: every colour the file omits comes from the default theme. */
  function ToTheme(s: ThemeSerializer, name: string): (t: Theme)
    ensures t.name == name
    ensures Merged(s.bg, DefaultTheme().bg, t.bg)
    ensures Merged(s.main, DefaultTheme().main, t.main)
    ensures Merged(s.caret, DefaultTheme().caret, t.caret)
    ensures Merged(s.text, DefaultTheme().text, t.text)
    ensures Merged(s.sub, DefaultTheme().sub, t.sub)
    ensures Merged(s.subAlt, DefaultTheme().subAlt, t.subAlt)
    ensures Merged(s.error, DefaultTheme().error, t.error)
    ensures Merged(s.errorExtra, DefaultTheme().errorExtra, t.errorExtra)
    ensures Merged(s.colorfulError, DefaultTheme().colorfulError, t.colorfulError)
    ensures Merged(s.colorfulErrorExtra, DefaultTheme().colorfulErrorExtra, t.colorfulErrorExtra)
    ensures Merged(s.untypedLetter, DefaultTheme().untypedLetter, t.untypedLetter)
  {
    var defaults := DefaultTheme();
    Theme(
      name := name,
      bg := s.bg.GetOr(defaults.bg),
      main := s.main.GetOr(defaults.main),
      caret := s.caret.GetOr(defaults.caret),
      text := s.text.GetOr(defaults.text),
      sub := s.sub.GetOr(defaults.sub),
      subAlt := s.subAlt.GetOr(defaults.subAlt),
      error := s.error.GetOr(defaults.error),
      errorExtra := s.errorExtra.GetOr(defaults.errorExtra),
      colorfulError := s.colorfulError.GetOr(defaults.colorfulError),
      colorfulErrorExtra := s.colorfulErrorExtra.GetOr(defaults.colorfulErrorExtra),
      untypedLetter := s.untypedLetter.GetOr(defaults.untypedLetter))
  }

  /** A theme file that names no colour at all. */
  function EmptySerializer(): ThemeSerializer {
    ThemeSerializer(None, None, None, None, None, None, None, None, None, None, None)
  }

  /** A theme file that spells out every colour of `t`. */
  function FullSerializer(t: Theme): ThemeSerializer {
    ThemeSerializer(Some(t.bg), Some(t.main), Some(t.caret), Some(t.text), Some(t.sub),
      Some(t.subAlt), Some(t.error), Some(t.errorExtra), Some(t.colorfulError),
      Some(t.colorfulErrorExtra), Some(t.untypedLetter))
  }

  /** An empty theme file gives the default theme under the file's name. */
  lemma EmptyFileIsDefault(name: string)
    ensures ToTheme(EmptySerializer(), name) == DefaultTheme().(name := name)
  {
  }

  /** A file that spells out every colour of a theme gives that theme back. */
  lemma FullFileRoundTrip(t: Theme)
    ensures ToTheme(FullSerializer(t), t.name) == t
  {
  }

  /** `Theme::serialize`: a theme is written as its name only. */
  function Serialize(t: Theme): (s: string)
    ensures s == t.name
  {
    t.name
  }

  /** Serializing a theme read from a file named `name` gives `name` back, whatever the colours. */
  lemma SerializeLoaded(s: ThemeSerializer, name: string)
    ensures Serialize(ToTheme(s, name)) == name
  {
  }

  /** The file name `Theme::get_path` gives a theme (the data directory is not modelled). */
  function ThemeFileName(name: string): (f: string)
    ensures EndsWithJson(f) && |f| == |name| + 5 && f[..|name|] == name
  {
    name + ".json"
  }

  /** Position of the last occurrence of `c` in `s`, if any. */
  function LastIndexOf(s: string, c: char): (r: Option<nat>)
    ensures r.Some? ==> r.value < |s| && s[r.value] == c
    ensures r.Some? ==> forall j :: r.value < j < |s| ==> s[j] != c
    ensures r.None? ==> forall j :: 0 <= j < |s| ==> s[j] != c
  {
    if s == [] then None
    else if s[|s| - 1] == c then Some(|s| - 1)
    else LastIndexOf(s[..|s| - 1], c)
  }

  /** `str::rsplit_once(".")`: the text before and after the last `'.'`. */
  function RsplitOnceDot(s: string): (r: Option<(string, string)>)
    ensures r.None? <==> '.' !in s
    ensures r.Some? ==> s == r.value.0 + "." + r.value.1 && '.' !in r.value.1
  {
    match LastIndexOf(s, '.')
    case None => None
    case Some(i) => Some((s[..i], s[i + 1..]))
  }

  predicate EndsWithJson(s: string) {
    |s| >= 5 && s[|s| - 5..] == ".json"
  }

  /** In a name ending in ".json" the last dot is the one before "json". */
  lemma LastDotOfJsonName(f: string)
    ensures EndsWithJson(f) ==> LastIndexOf(f, '.') == Some(|f| - 5)
  {
    if EndsWithJson(f) {
      assert f[|f| - 5] == '.';
      assert forall j :: |f| - 4 <= j < |f| ==> f[j] != '.' by {
        assert f[|f| - 4..] == "json";
      }
    }
  }

  /** The file-name test inside `Theme::all`: a file is a theme when the text after its last
      `'.'` is exactly "json"; the theme's name is the text before that `'.'`. */
  function JsonThemeName(fileName: string): (r: Option<string>)
    ensures r.Some? <==> EndsWithJson(fileName)
    ensures r.Some? ==> fileName == r.value + ".json"
  {
    LastDotOfJsonName(fileName);
    assert EndsWithJson(fileName) ==> fileName[|fileName| - 4..] == "json";
    match RsplitOnceDot(fileName)
    case None => None
    case Some((stem, extension)) =>
      if extension == "json" then Some(stem) else None
  }

  /** A name without '/' stored with `Theme::get_path`'s file name is found again by
      `Theme::all`, even when the name itself contains dots. (A '/' would make `get_path`
      place the file in a subdirectory, which `all` does not read.) */
  lemma ThemeFileNameRoundTrip(name: string)
    requires '/' !in name
    ensures JsonThemeName(ThemeFileName(name)) == Some(name)
  {
    var f := ThemeFileName(name);
    assert f[|f| - 5..] == ".json";
    assert f[..|f| - 5] == name;
  }

  /** The theme name one directory entry contributes, if any. A directory entry is `None`
      when it has no file name or the name is not valid UTF-8. */
  function EntryNames(entry: Option<string>): seq<string> {
    match entry
    case None => []
    case Some(f) =>
      match JsonThemeName(f)
      case None => []
      case Some(n) => [n]
  }

  /** The theme names `Theme::all` passes to `Theme::load`, in directory order. */
  function JsonThemeNames(entries: seq<Option<string>>): (names: seq<string>)
    ensures |names| <= |entries|
  {
    if entries == [] then []
    else JsonThemeNames(entries[..|entries| - 1]) + EntryNames(entries[|entries| - 1])
  }

  /** A name without '/' is listed exactly when the directory holds that name's theme file
      (directory entries are plain file names, so a name with '/' never has one). */
  lemma {:induction false} JsonThemeNamesMembers(entries: seq<Option<string>>, name: string)
    requires '/' !in name
    ensures name in JsonThemeNames(entries) <==> Some(ThemeFileName(name)) in entries
  {
    if entries != [] {
      var init, last := entries[..|entries| - 1], entries[|entries| - 1];
      JsonThemeNamesMembers(init, name);
      assert entries == init + [last];
      if last == Some(ThemeFileName(name)) {
        ThemeFileNameRoundTrip(name);
      }
    }
  }

  /** The directory loop of `Theme::all`, pushing each theme file's name in order
      (the loading of each file is I/O and not modelled). */
  method AllThemeNames(entries: seq<Option<string>>) returns (names: seq<string>)
    ensures names == JsonThemeNames(entries)
  {
    names := [];
    var i := 0;
    while i < |entries|
      invariant 0 <= i <= |entries|
      invariant names == JsonThemeNames(entries[..i])
    {
      assert entries[..i + 1][..i] == entries[..i];
      match entries[i] {
        case None =>
        case Some(f) =>
          match JsonThemeName(f) {
            case None =>
            case Some(n) => names := names + [n];
          }
      }
      i := i + 1;
    }
    assert entries[..i] == entries;
  }
}
