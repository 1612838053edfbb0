/** The application's tabs and their numbering (src/app/tab.rs). */
module Tabs {
  import opened Wrappers

  /** The tabs, in declaration order. */
  datatype Tab = Main | Typing | Settings | Help

  /** The `as usize` value of a tab: its position in the declaration. */
  function Discriminant(t: Tab): (d: nat)
    ensures d < 4
    ensures t == Main ==> d == 0
    ensures t == Typing ==> d == 1
    ensures t == Settings ==> d == 2
    ensures t == Help ==> d == 3
  {
    match t
    case Main => 0
    case Typing => 1
    case Settings => 2
    case Help => 3
  }

  /** `Tab::from_number`: the tab whose discriminant equals `num`, tried in declaration order. */
  function FromNumber(num: nat): (r: Option<Tab>)
    ensures r.Some? <==> num < 4
    ensures r.Some? ==> Discriminant(r.value) == num
    ensures num == 0 ==> r == Some(Main)
    ensures num == 1 ==> r == Some(Typing)
    ensures num == 2 ==> r == Some(Settings)
    ensures num == 3 ==> r == Some(Help)
  {
    if num == Discriminant(Main) then Some(Main)
    else if num == Discriminant(Typing) then Some(Typing)
    else if num == Discriminant(Settings) then Some(Settings)
    else if num == Discriminant(Help) then Some(Help)
    else None
  }

  /** Converting a tab to its number and back gives the tab. */
  lemma FromNumberRoundTrip(t: Tab)
    ensures FromNumber(Discriminant(t)) == Some(t)
  {
  }

  /** `Tab::to_string`: the tab's title. */
  function Name(t: Tab): (s: string)
    ensures t == Main ==> s == "Main"
    ensures t == Typing ==> s == "Typing"
    ensures t == Settings ==> s == "Settings"
    ensures t == Help ==> s == "Help"
  {
    match t
    case Main => "Main"
    case Typing => "Typing"
    case Help => "Help"
    case Settings => "Settings"
  }

  /** Distinct tabs have distinct titles. */
  lemma NamesDistinct(s: Tab, t: Tab)
    requires s != t
    ensures Name(s) != Name(t)
  {
  }
}
