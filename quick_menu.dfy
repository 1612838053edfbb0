/** The quick menu's search line: a character buffer with a cursor, edited by key events,
    and its splitting into search words (src/app/quick_menu.rs). */
module QuickMenu {
  import opened Wrappers
  import Themes
  import QuickMenuItems

  /** The keys the menu distinguishes; every other key is `OtherKey`. */
  datatype KeyCode = Char(c: char) | Backspace | Enter | OtherKey

  /** Modifier flags; a key event carries a set of them. */
  datatype Modifier = Shift | Control | Alt | Super | Hyper | Meta

  datatype KeyEventKind = Press | Repeat | Release

  datatype KeyEvent = KeyEvent(code: KeyCode, modifiers: set<Modifier>, kind: KeyEventKind)

  /** `Vec::insert`: `c` placed before position `i`. */
  function InsertAt(s: seq<char>, i: nat, c: char): (r: seq<char>)
    requires i <= |s|
    ensures |r| == |s| + 1 && r[i] == c
    ensures forall k :: 0 <= k < i ==> r[k] == s[k]
    ensures forall k :: i < k < |r| ==> r[k] == s[k - 1]
  {
    s[..i] + [c] + s[i..]
  }

  /** `Vec::remove`: the character at position `i` taken out. */
  function RemoveAt(s: seq<char>, i: nat): (r: seq<char>)
    requires i < |s|
    ensures |r| == |s| - 1
    ensures forall k :: 0 <= k < i ==> r[k] == s[k]
    ensures forall k :: i <= k < |r| ==> r[k] == s[k + 1]
  {
    s[..i] + s[i + 1..]
  }

  /** Typing a character and erasing it again with backspace restores the line. */
  lemma RemoveAfterInsert(s: seq<char>, i: nat, c: char)
    requires i <= |s|
    ensures RemoveAt(InsertAt(s, i, c), i) == s
  {
    assert RemoveAt(InsertAt(s, i, c), i) == s[..i] + s[i..];
  }

  class QuickMenu {
    var visible: bool
    var input: seq<char>
    var currentIndex: nat
    var options: QuickMenuItems.QuickMenuItem

    /** The cursor never leaves the line. */
    ghost predicate Valid()
      reads this
    {
      currentIndex <= |input|
    }

    /** `QuickMenu::new`, given the themes `Theme::all_quick_menu_items` would read from disk. */
    constructor (themes: seq<Themes.Theme>)
      ensures Valid()
      ensures !visible && input == [] && currentIndex == 0
      ensures options == QuickMenuItems.Label(QuickMenuItems.FromIter(themes), Some("themes"))
    {
      visible := false;
      input := [];
      currentIndex := 0;
      options := QuickMenuItems.Label(QuickMenuItems.FromIter(themes), Some("themes"));
    }

    function IsVisible(): (v: bool)
      reads this
      ensures v <==> visible
    {
      visible
    }

    /** `toggle`: shows or hides the menu and changes nothing else. */
    method Toggle()
      requires Valid()
      modifies this
      ensures Valid()
      ensures visible == !old(visible)
      ensures input == old(input) && currentIndex == old(currentIndex) && options == old(options)
    {
      visible := !visible;
    }

    /** `handle_key_event`, for the parts that edit the search line. Ctrl-h/l move the cursor
        by one within the line, Ctrl-a/e jump to its ends; a plain or shifted character is
        inserted at the cursor, Backspace deletes the character before it. List selection
        (Ctrl-n/p/j/k/g/G) and Enter touch only state outside this model. */
    method HandleKeyEvent(event: KeyEvent)
      requires Valid()
      modifies this
      ensures Valid()
      ensures visible == old(visible) && options == old(options)
      ensures event.kind != Press ==> input == old(input) && currentIndex == old(currentIndex)
      ensures event.kind == Press && event.modifiers == {Control} ==>
        input == old(input) &&
        currentIndex == match event.code
          case Char('h') => if old(currentIndex) == 0 then 0 else old(currentIndex) - 1
          case Char('l') => if old(currentIndex) < |input| then old(currentIndex) + 1 else |input|
          case Char('a') => 0
          case Char('e') => |input|
          case _ => old(currentIndex)
      ensures event.kind == Press && (event.modifiers == {Shift} || event.modifiers == {}) ==>
        match event.code
        case Char(c) =>
          input == InsertAt(old(input), old(currentIndex), c) && currentIndex == old(currentIndex) + 1
        case Backspace =>
          if old(currentIndex) == 0 then input == old(input) && currentIndex == 0
          else input == RemoveAt(old(input), old(currentIndex) - 1) && currentIndex == old(currentIndex) - 1
        case _ => input == old(input) && currentIndex == old(currentIndex)
      ensures event.kind == Press && event.modifiers !in {{Control}, {Shift}, {}} ==>
        input == old(input) && currentIndex == old(currentIndex)
    {
      if event.kind == Press {
        if event.modifiers == {Control} {
          match event.code {
            case Char('h') =>
              currentIndex := if currentIndex == 0 then 0 else currentIndex - 1;
            case Char('l') =>
              currentIndex := if currentIndex + 1 <= |input| then currentIndex + 1 else |input|;
            case Char('a') =>
              currentIndex := 0;
            case Char('e') =>
              currentIndex := |input|;
            case _ =>
          }
        } else if event.modifiers == {Shift} || event.modifiers == {} {
          match event.code {
            case Char(c) =>
              input := InsertAt(input, currentIndex, c);
              currentIndex := currentIndex + 1;
            case Backspace =>
              if currentIndex != 0 {
                currentIndex := currentIndex - 1;
                input := RemoveAt(input, currentIndex);
              }
            case _ =>
          }
        }
      }
    }

    /** `format_input`: the search words of the line, split at every space. */
    method FormatInput() returns (words: seq<string>)
      ensures words == FormatWords(input)
    {
      var line := input;
      var acc: seq<string> := [];
      var index: nat := 0;
      for i := 0 to |line|
        invariant acc == FormatWords(line[..i])
        invariant index == Spaces(line[..i])
      {
        assert line[..i + 1] == line[..i] + [line[i]];
        acc, index := FormatStep(acc, index, line[i], line[..i]);
      }
      assert line[..|line|] == line;
      words := acc;
    }
  }

  /** The body of the fold in `format_input`: make sure the current word exists, then either
      extend it with `c` or, at a space, move on to the next word. */
  method FormatStep(acc: seq<string>, index: nat, c: char, ghost p: string)
    returns (acc': seq<string>, index': nat)
    requires acc == FormatWords(p) && index == Spaces(p)
    ensures acc' == FormatWords(p + [c]) && index' == Spaces(p + [c])
  {
    ghost var f := Fields(p);
    FormatWordsOpen(p);
    FieldsSnoc(p, c);
    acc', index' := acc, index;
    while |acc'| <= index'
      invariant acc' == f || acc' + [""] == f
      decreases index' + 1 - |acc'|
    {
      acc' := acc' + [""];
    }
    if c != ' ' {
      acc' := acc'[index' := acc'[index'] + [c]];
    } else {
      index' := index' + 1;
    }
  }

  // ---------------------------------------------------------------------------
  // Reference definitions of the splitting

  /** The number of spaces in `s`. */
  function Spaces(s: string): nat {
    if s == [] then 0 else Spaces(s[..|s| - 1]) + (if s[|s| - 1] == ' ' then 1 else 0)
  }

  /** `s` split at every space: one more field than there are spaces. */
  function Fields(s: string): (f: seq<string>)
    ensures |f| == Spaces(s) + 1
  {
    if s == [] then [""]
    else
      var f := Fields(s[..|s| - 1]);
      var c := s[|s| - 1];
      if c == ' ' then f + [""] else f[..|f| - 1] + [f[|f| - 1] + [c]]
  }

  /** What `format_input` yields: no words for an empty line; otherwise the fields of the line
      without its last character when that is a space (a trailing space opens no word). */
  function FormatWords(s: string): (words: seq<string>)
    ensures s == [] ==> words == []
    ensures s != [] ==> |words| == 1 + Spaces(s[..|s| - 1])
  {
    if s == [] then []
    else if s[|s| - 1] == ' ' then Fields(s[..|s| - 1])
    else Fields(s)
  }

  /** The words of a line are its fields, short of the last (empty) one after a trailing space. */
  lemma FormatWordsOpen(p: string)
    ensures FormatWords(p) == Fields(p) || FormatWords(p) + [""] == Fields(p)
  {
    if p != [] && p[|p| - 1] == ' ' {
      assert p == p[..|p| - 1] + [' '];
    }
  }

  /** One more character either opens a new field or extends the last one. */
  lemma FieldsSnoc(p: string, c: char)
    ensures Spaces(p + [c]) == Spaces(p) + (if c == ' ' then 1 else 0)
    ensures c == ' ' ==> Fields(p + [c]) == Fields(p) + [""] && FormatWords(p + [c]) == Fields(p)
    ensures c != ' ' ==> FormatWords(p + [c]) == Fields(p + [c])
    ensures c != ' ' ==> Fields(p + [c]) == Fields(p)[|Fields(p)| - 1 := Fields(p)[|Fields(p)| - 1] + [c]]
  {
    assert (p + [c])[..|p|] == p;
  }

  /** The words separated by single spaces. */
  function Join(words: seq<string>): string
    requires |words| >= 1
  {
    if |words| == 1 then words[0] else Join(words[..|words| - 1]) + " " + words[|words| - 1]
  }

  /** `s` with every space removed. */
  function RemoveSpaces(s: string): string {
    if s == [] then [] else RemoveSpaces(s[..|s| - 1]) + (if s[|s| - 1] == ' ' then [] else [s[|s| - 1]])
  }

  function ConcatWords(words: seq<string>): string {
    if words == [] then [] else ConcatWords(words[..|words| - 1]) + words[|words| - 1]
  }

  /** No field contains a space. */
  lemma {:induction false} FieldsHaveNoSpaces(s: string)
    ensures forall k :: 0 <= k < |Fields(s)| ==> ' ' !in Fields(s)[k]
  {
    if s != [] {
      FieldsHaveNoSpaces(s[..|s| - 1]);
    }
  }

  /** Extending the last word extends the joined line. */
  lemma JoinExtendLast(f: seq<string>, c: char)
    requires |f| >= 1
    ensures Join(f[|f| - 1 := f[|f| - 1] + [c]]) == Join(f) + [c]
  {
    var g := f[|f| - 1 := f[|f| - 1] + [c]];
    if |f| > 1 {
      assert g[..|g| - 1] == f[..|f| - 1];
      calc {
        Join(g);
        Join(f[..|f| - 1]) + " " + (f[|f| - 1] + [c]);
        (Join(f[..|f| - 1]) + " " + f[|f| - 1]) + [c];
      }
    }
  }

  /** Joining the fields with single spaces gives the line back. */
  lemma {:induction false} JoinFields(s: string)
    ensures Join(Fields(s)) == s
  {
    if s != [] {
      var init, c := s[..|s| - 1], s[|s| - 1];
      assert s == init + [c];
      FieldsSnoc(init, c);
      JoinFields(init);
      var f := Fields(init);
      if c == ' ' {
        assert (f + [""])[..|f|] == f;
        assert Join(f + [""]) == Join(f) + " ";
      } else {
        JoinExtendLast(f, c);
      }
    }
  }

  /** Gluing the fields together gives the line without its spaces. */
  lemma {:induction false} ConcatFields(s: string)
    ensures ConcatWords(Fields(s)) == RemoveSpaces(s)
  {
    if s != [] {
      var init, c := s[..|s| - 1], s[|s| - 1];
      assert s == init + [c];
      FieldsSnoc(init, c);
      ConcatFields(init);
      var f := Fields(init);
      if c == ' ' {
        assert (f + [""])[..|f|] == f;
      } else {
        var g := f[|f| - 1 := f[|f| - 1] + [c]];
        assert g[..|g| - 1] == f[..|f| - 1];
        calc {
          ConcatWords(g);
          ConcatWords(f[..|f| - 1]) + (f[|f| - 1] + [c]);
          (ConcatWords(f[..|f| - 1]) + f[|f| - 1]) + [c];
          ConcatWords(f) + [c];
        }
      }
    }
  }

  /** The search words contain no space, and together they are the line without its spaces. */
  lemma FormatWordsProperties(s: string)
    ensures forall k :: 0 <= k < |FormatWords(s)| ==> ' ' !in FormatWords(s)[k]
    ensures ConcatWords(FormatWords(s)) == RemoveSpaces(s)
  {
    if s != [] {
      var init := s[..|s| - 1];
      if s[|s| - 1] == ' ' {
        FieldsHaveNoSpaces(init);
        ConcatFields(init);
      } else {
        FieldsHaveNoSpaces(s);
        ConcatFields(s);
      }
    }
  }
}
