/** The quick menu's item tree and its search filter (src/app/quick_menu/item.rs).
    A rendered list item is modelled by its breadcrumb label. */
module QuickMenuItems {
  import opened Wrappers
  import Themes
  import TypingMode

  /** A menu entry: a (possibly unlabelled) category of entries, a theme or a mode. */
  datatype QuickMenuItem =
    | Category(caption: Option<string>, options: seq<QuickMenuItem>)
    | Theme(theme: Themes.Theme)
    | Mode(mode: TypingMode.Mode)

  /** Why rendering a list could not finish: at item.rs:70 the padding width
      `list_width - len - 4` is computed with unsigned subtraction and panics when the
      breadcrumb is too long. */
  datatype RenderError = WidthUnderflow

  /** The breadcrumb separator: U+F0142 (a chevron in Nerd Fonts) and a space. */
  const Separator: string := "\U{F0142} "

  /** `QuickMenuItem::label`: gives a category a new label; themes and modes are returned as
      they are. */
  function Label(item: QuickMenuItem, caption: Option<string>): (r: QuickMenuItem)
    ensures item.Category? ==> r == Category(caption, item.options)
    ensures !item.Category? ==> r == item
  {
    match item
    case Category(_, options) => Category(caption, options)
    case _ => item
  }

  /** `add_to_category`: appends `text` to the breadcrumb `category`. */
  function AddToCategory(category: Option<string>, text: Option<string>): (r: Option<string>)
    ensures category.Some? && text.Some? ==> r == Some(category.value + Separator + text.value)
    ensures category.None? ==> r == text
    ensures text.None? ==> r == category
  {
    match (category, text)
    case (Some(c), Some(t)) => Some(c + Separator + t)
    case (None, Some(t)) => Some(t)
    case (Some(c), None) => Some(c)
    case (None, None) => None
  }

  /** Breadcrumbs do not depend on how the labels were grouped. */
  lemma AddToCategoryAssociative(a: Option<string>, b: Option<string>, c: Option<string>)
    ensures AddToCategory(AddToCategory(a, b), c) == AddToCategory(a, AddToCategory(b, c))
  {
    if a.Some? && b.Some? && c.Some? {
      assert (a.value + Separator + b.value) + Separator + c.value
          == a.value + Separator + (b.value + Separator + c.value);
    }
  }

  // ---------------------------------------------------------------------------
  // Substring search

  predicate OccursAt(w: string, s: string, i: nat) {
    i + |w| <= |s| && s[i..i + |w|] == w
  }

  ghost predicate IsSubstring(w: string, s: string) {
    exists i: nat :: OccursAt(w, s, i)
  }

  lemma ShiftOccurrence(s: string, w: string)
    requires s != [] && !OccursAt(w, s, 0)
    ensures IsSubstring(w, s) <==> IsSubstring(w, s[1..])
  {
    if IsSubstring(w, s) {
      var i: nat :| OccursAt(w, s, i);
      assert i > 0;
      assert s[1..][i - 1..i - 1 + |w|] == s[i..i + |w|];
      assert OccursAt(w, s[1..], i - 1);
    }
    if IsSubstring(w, s[1..]) {
      var i: nat :| OccursAt(w, s[1..], i);
      assert s[i + 1..i + 1 + |w|] == s[1..][i..i + |w|];
      assert OccursAt(w, s, i + 1);
    }
  }

  /** `str::contains`: whether `w` occurs in `s`. */
  function Contains(s: string, w: string): (b: bool)
    ensures b <==> IsSubstring(w, s)
    decreases |s|
  {
    if |w| > |s| then false
    else if s[..|w|] == w then
      assert OccursAt(w, s, 0);
      true
    else
      ShiftOccurrence(s, w);
      Contains(s[1..], w)
  }

  /** Every search word occurs in `s`. */
  predicate MatchesAll(words: seq<string>, s: string) {
    forall i :: 0 <= i < |words| ==> Contains(s, words[i])
  }

  /** `matches`: stops at the first word that does not occur in `s`. */
  method Matches(words: seq<string>, s: string) returns (b: bool)
    ensures b <==> forall i :: 0 <= i < |words| ==> IsSubstring(words[i], s)
    ensures b == MatchesAll(words, s)
  {
    for i := 0 to |words|
      invariant forall k :: 0 <= k < i ==> IsSubstring(words[k], s)
    {
      if !Contains(s, words[i]) {
        return false;
      }
    }
    return true;
  }

  // ---------------------------------------------------------------------------
  // Listing the items

  /** Bytes of one character in UTF-8. */
  function Utf8Width(c: char): nat {
    if c as int < 0x80 then 1
    else if c as int < 0x800 then 2
    else if c as int < 0x10000 then 3
    else 4
  }

  /** `str::len`: the length of a string in UTF-8 bytes. */
  function Utf8Len(s: string): (n: nat)
    ensures |s| <= n <= 4 * |s|
  {
    if s == [] then 0 else Utf8Len(s[..|s| - 1]) + Utf8Width(s[|s| - 1])
  }

  /** The byte length of a concatenation is the sum of the byte lengths. */
  lemma {:induction false} Utf8LenAppend(a: string, b: string)
    ensures Utf8Len(a + b) == Utf8Len(a) + Utf8Len(b)
  {
    if b == [] {
      assert a + b == a;
    } else {
      var init := b[..|b| - 1];
      assert (a + b)[..|a + b| - 1] == a + init;
      Utf8LenAppend(a, init);
    }
  }

  /** The separator alone takes five bytes. */
  lemma SeparatorBytes()
    ensures Utf8Len(Separator) == 5
  {
    assert Separator[..1] == ['\U{F0142}'];
    assert Separator[..1][..0] == [];
  }

  /** A breadcrumb takes the bytes of its two parts and five for the separator. */
  lemma BreadcrumbBytes(category: string, text: string)
    ensures Utf8Len(AddToCategory(Some(category), Some(text)).value)
         == Utf8Len(category) + 5 + Utf8Len(text)
  {
    SeparatorBytes();
    Utf8LenAppend(category, Separator);
    Utf8LenAppend(category + Separator, text);
  }

  function Concat<T>(xss: seq<seq<T>>): seq<T> {
    if xss == [] then [] else xss[0] + Concat(xss[1..])
  }

  /** `collect` over the children's lists: their concatenation, unless one of them panicked. */
  function Collect(rs: seq<Result<seq<string>, RenderError>>): (r: Result<seq<string>, RenderError>)
    ensures r.Success? <==> forall i :: 0 <= i < |rs| ==> rs[i].Success?
    ensures r.Success? ==> forall x :: x in r.value ==> exists i :: 0 <= i < |rs| && x in rs[i].value
  {
    if rs == [] then Success([])
    else
      match rs[0]
      case Failure(e) => Failure(e)
      case Success(v) =>
        match Collect(rs[1..])
        case Failure(e) => Failure(e)
        case Success(w) => Success(v + w)
  }

  /** `as_list_items_filtered`: the breadcrumb of every theme below `item` that matches all
      search words, in tree order; a theme's breadcrumb is its category path followed by its
      name. Every theme's padding is computed before the match test, so a too narrow list
      panics even for themes that are filtered out. */
  function ItemsFiltered(item: QuickMenuItem, inCategory: Option<string>, listWidth: nat,
                         words: seq<string>): (r: Result<seq<string>, RenderError>)
    ensures r.Success? ==> forall x :: x in r.value ==> MatchesAll(words, x)
    decreases item
  {
    match item
    case Category(caption, options) =>
      var category := AddToCategory(inCategory, caption);
      Collect(seq(|options|, i requires 0 <= i < |options| =>
        ItemsFiltered(options[i], category, listWidth, words)))
    case Theme(theme) =>
      var category := AddToCategory(inCategory, Some(theme.name)).GetOr("");
      if listWidth < Utf8Len(category) + 4 then Failure(WidthUnderflow)
      else if MatchesAll(words, category) then Success([category])
      else Success([])
    case Mode(_) => Success([])
  }

  /** `as_list_items`: the unfiltered list. */
  function AsListItems(item: QuickMenuItem, listWidth: nat, inCategory: Option<string>): (r: Result<seq<string>, RenderError>)
    ensures r == if Fits(Paths(item, inCategory), listWidth)
                 then Success(Paths(item, inCategory)) else Failure(WidthUnderflow)
  {
    ItemsFilteredSpec(item, inCategory, listWidth, []);
    SelectNoWords(Paths(item, inCategory));
    ItemsFiltered(item, inCategory, listWidth, [])
  }

  // Reference definitions: the breadcrumbs of all themes, and the search over them.

  /** The breadcrumb of every theme below `item`, in tree order. */
  function Paths(item: QuickMenuItem, inCategory: Option<string>): seq<string>
    decreases item
  {
    match item
    case Category(caption, options) =>
      Concat(seq(|options|, i requires 0 <= i < |options| =>
        Paths(options[i], AddToCategory(inCategory, caption))))
    case Theme(theme) => [AddToCategory(inCategory, Some(theme.name)).GetOr("")]
    case Mode(_) => []
  }

  /** The number of themes below `item`. */
  function ThemeCount(item: QuickMenuItem): nat
    decreases item
  {
    match item
    case Category(_, options) => Sum(seq(|options|, i requires 0 <= i < |options| => ThemeCount(options[i])))
    case Theme(_) => 1
    case Mode(_) => 0
  }

  function Sum(ns: seq<nat>): nat {
    if ns == [] then 0 else ns[0] + Sum(ns[1..])
  }

  /** The breadcrumbs that match all words, in order. */
  function Select(words: seq<string>, paths: seq<string>): seq<string> {
    if paths == [] then []
    else (if MatchesAll(words, paths[0]) then [paths[0]] else []) + Select(words, paths[1..])
  }

  /** Every breadcrumb leaves room for its padding in a list `width` bytes wide. */
  predicate Fits(paths: seq<string>, width: nat) {
    forall i :: 0 <= i < |paths| ==> Utf8Len(paths[i]) + 4 <= width
  }

  lemma {:induction false} SelectAppend(words: seq<string>, a: seq<string>, b: seq<string>)
    ensures Select(words, a + b) == Select(words, a) + Select(words, b)
  {
    if a == [] {
      assert a + b == b;
    } else {
      var head := if MatchesAll(words, a[0]) then [a[0]] else [];
      assert (a + b)[0] == a[0];
      assert (a + b)[1..] == a[1..] + b;
      SelectAppend(words, a[1..], b);
      calc {
        Select(words, a + b);
        head + Select(words, a[1..] + b);
        head + (Select(words, a[1..]) + Select(words, b));
        (head + Select(words, a[1..])) + Select(words, b);
      }
    }
  }

  lemma FitsAppend(a: seq<string>, b: seq<string>, width: nat)
    ensures Fits(a + b, width) <==> Fits(a, width) && Fits(b, width)
  {
    if Fits(a, width) && Fits(b, width) {
      forall i | 0 <= i < |a + b| ensures Utf8Len((a + b)[i]) + 4 <= width {
        if i >= |a| { assert (a + b)[i] == b[i - |a|]; }
      }
    }
    if Fits(a + b, width) {
      forall i | 0 <= i < |a| ensures Utf8Len(a[i]) + 4 <= width {
        assert (a + b)[i] == a[i];
      }
      forall i | 0 <= i < |b| ensures Utf8Len(b[i]) + 4 <= width {
        assert (a + b)[|a| + i] == b[i];
      }
    }
  }

  /** Collecting the children's results is searching the concatenation of their breadcrumbs. */
  lemma {:induction false} CollectSpec(rs: seq<Result<seq<string>, RenderError>>, ps: seq<seq<string>>,
                                       width: nat, words: seq<string>)
    requires |rs| == |ps|
    requires forall i :: 0 <= i < |rs| ==>
      rs[i] == if Fits(ps[i], width) then Success(Select(words, ps[i])) else Failure(WidthUnderflow)
    ensures Collect(rs) == if Fits(Concat(ps), width) then Success(Select(words, Concat(ps)))
                           else Failure(WidthUnderflow)
  {
    if rs != [] {
      CollectSpec(rs[1..], ps[1..], width, words);
      FitsAppend(ps[0], Concat(ps[1..]), width);
      SelectAppend(words, ps[0], Concat(ps[1..]));
    }
  }

  /** The listing is the search over all breadcrumbs, or a panic when one does not fit. */
  lemma {:induction false} ItemsFilteredSpec(item: QuickMenuItem, inCategory: Option<string>,
                                             width: nat, words: seq<string>)
    ensures ItemsFiltered(item, inCategory, width, words)
         == if Fits(Paths(item, inCategory), width) then Success(Select(words, Paths(item, inCategory)))
            else Failure(WidthUnderflow)
    decreases item
  {
    match item
    case Category(caption, options) =>
      var category := AddToCategory(inCategory, caption);
      var rs := seq(|options|, i requires 0 <= i < |options| => ItemsFiltered(options[i], category, width, words));
      var ps := seq(|options|, i requires 0 <= i < |options| => Paths(options[i], category));
      forall i | 0 <= i < |options|
        ensures rs[i] == if Fits(ps[i], width) then Success(Select(words, ps[i])) else Failure(WidthUnderflow)
      {
        ItemsFilteredSpec(options[i], category, width, words);
      }
      CollectSpec(rs, ps, width, words);
    case Theme(theme) =>
      var path := AddToCategory(inCategory, Some(theme.name)).GetOr("");
      assert [path][1..] == [] && [path][0] == path;
      assert Fits([path], width) <==> Utf8Len(path) + 4 <= width by {
        if Utf8Len(path) + 4 <= width {
          forall i | 0 <= i < 1 ensures Utf8Len([path][i]) + 4 <= width {
            assert i == 0;
          }
        }
      }
      assert Paths(item, inCategory) == [path];
      assert Select(words, [path]) == (if MatchesAll(words, path) then [path] else []) + Select(words, []);
      assert Select(words, [path]) == if MatchesAll(words, path) then [path] else [];
      assert ItemsFiltered(item, inCategory, width, words)
          == if width < Utf8Len(path) + 4 then Failure(WidthUnderflow)
             else if MatchesAll(words, path) then Success([path]) else Success([]);
    case Mode(_) =>
  }

  lemma {:induction false} SelectNoWords(paths: seq<string>)
    ensures Select([], paths) == paths
  {
    if paths != [] {
      SelectNoWords(paths[1..]);
    }
  }

  lemma {:induction false} ConcatLength(xss: seq<seq<string>>, ns: seq<nat>)
    requires |xss| == |ns| && forall i :: 0 <= i < |xss| ==> |xss[i]| == ns[i]
    ensures |Concat(xss)| == Sum(ns)
  {
    if xss != [] {
      ConcatLength(xss[1..], ns[1..]);
    }
  }

  /** There is one breadcrumb per theme, whatever the category path. */
  lemma {:induction false} PathsCount(item: QuickMenuItem, inCategory: Option<string>)
    ensures |Paths(item, inCategory)| == ThemeCount(item)
    decreases item
  {
    match item
    case Category(caption, options) =>
      var ps := seq(|options|, i requires 0 <= i < |options| => Paths(options[i], AddToCategory(inCategory, caption)));
      var ns := seq(|options|, i requires 0 <= i < |options| => ThemeCount(options[i]));
      forall i | 0 <= i < |options| ensures |ps[i]| == ns[i] {
        PathsCount(options[i], AddToCategory(inCategory, caption));
      }
      ConcatLength(ps, ns);
    case Theme(_) =>
    case Mode(_) =>
  }

  /** With no search words, a list wide enough shows one entry per theme. */
  lemma NoWordsListsEveryTheme(item: QuickMenuItem, inCategory: Option<string>, width: nat)
    requires Fits(Paths(item, inCategory), width)
    ensures ItemsFiltered(item, inCategory, width, []).Success?
    ensures |ItemsFiltered(item, inCategory, width, []).value| == ThemeCount(item)
  {
    ItemsFilteredSpec(item, inCategory, width, []);
    SelectNoWords(Paths(item, inCategory));
    PathsCount(item, inCategory);
  }

  /** A theme is listed exactly when its breadcrumb matches the search words. */
  lemma ThemeListedIffMatches(theme: Themes.Theme, inCategory: Option<string>, width: nat, words: seq<string>)
    requires Fits(Paths(Theme(theme), inCategory), width)
    ensures ItemsFiltered(Theme(theme), inCategory, width, words).Success?
    ensures |ItemsFiltered(Theme(theme), inCategory, width, words).value| == 1
        <==> MatchesAll(words, AddToCategory(inCategory, Some(theme.name)).value)
  {
    var path := AddToCategory(inCategory, Some(theme.name)).GetOr("");
    assert Paths(Theme(theme), inCategory)[0] == path;
  }

  // ---------------------------------------------------------------------------
  // Building the tree

  /** `FromIterator`: an unlabelled category of the themes, in iteration order. */
  function FromIter(themes: seq<Themes.Theme>): (r: QuickMenuItem)
    ensures r.Category? && r.caption.None? && |r.options| == |themes|
    ensures forall i :: 0 <= i < |themes| ==> r.options[i] == Theme(themes[i])
  {
    Category(None, seq(|themes|, i requires 0 <= i < |themes| => Theme(themes[i])))
  }

  lemma {:induction false} ConcatSingletons(xss: seq<seq<string>>, xs: seq<string>)
    requires |xss| == |xs| && forall i :: 0 <= i < |xss| ==> xss[i] == [xs[i]]
    ensures Concat(xss) == xs
  {
    if xss != [] {
      ConcatSingletons(xss[1..], xs[1..]);
    }
  }

  /** The quick menu's theme list as `QuickMenu::new` builds it: a category labelled
      "themes" over all themes, whose breadcrumbs are "themes" and each theme's name. */
  lemma LabelledThemeListPaths(themes: seq<Themes.Theme>)
    ensures Paths(Label(FromIter(themes), Some("themes")), None)
         == seq(|themes|, i requires 0 <= i < |themes| => "themes" + Separator + themes[i].name)
  {
    var item := Label(FromIter(themes), Some("themes"));
    var ps := seq(|themes|, i requires 0 <= i < |themes| => Paths(item.options[i], Some("themes")));
    ConcatSingletons(ps, seq(|themes|, i requires 0 <= i < |themes| => "themes" + Separator + themes[i].name));
  }
}
