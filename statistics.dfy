/** Keystroke statistics of one typing test (src/typing/statistics.rs).
    Timestamps are integer milliseconds; the clock is read by the caller and passed in. */
module Statistics {
  import opened Wrappers

  /** Largest value of a 64-bit `usize`. */
  const UsizeMax: nat := 0xFFFF_FFFF_FFFF_FFFF

  /** One keystroke: the milliseconds since the previous one, the position typed at, and the
      typed (and, for a mistake, the expected) character. */
  datatype Char =
    | Error(delay: nat, index: nat, typed: char, actual: char)
    | Ok(delay: nat, index: nat, typed: char)

  /** The event `new_char` records for a keystroke. */
  function CharEvent(delay: nat, index: nat, typed: char, actual: char): (c: Char)
    ensures c.Ok? <==> typed == actual
    ensures c.delay == delay && c.index == index && c.typed == typed
    ensures c.Error? ==> c.actual == actual
  {
    if typed == actual then Ok(delay, index, typed) else Error(delay, index, typed, actual)
  }

  /** Whole milliseconds from `since` to `now`; 0 when the clock went backwards
      (`duration_since` failing). */
  function Delay(now: int, since: int): (d: nat)
    ensures now >= since ==> d + since == now
    ensures now <= since ==> d == 0
  {
    if now >= since then now - since else 0
  }

  // ---------------------------------------------------------------------------
  // Characters per minute

  /** The positions that received at least one correct keystroke. */
  ghost function OkIndices(chars: seq<Char>): set<nat> {
    set k | 0 <= k < |chars| && chars[k].Ok? :: chars[k].index
  }

  lemma OkIndicesSplit(chars: seq<Char>)
    requires chars != []
    ensures OkIndices(chars) == (if chars[0].Ok? then {chars[0].index} else {}) + OkIndices(chars[1..])
  {
    var rest := chars[1..];
    forall i | i in OkIndices(chars)
      ensures i in (if chars[0].Ok? then {chars[0].index} else {}) + OkIndices(rest)
    {
      var k :| 0 <= k < |chars| && chars[k].Ok? && chars[k].index == i;
      if k > 0 {
        assert rest[k - 1] == chars[k];
      }
    }
    forall i | i in OkIndices(rest) ensures i in OkIndices(chars) {
      var k :| 0 <= k < |rest| && rest[k].Ok? && rest[k].index == i;
      assert chars[k + 1] == rest[k];
    }
  }

  predicate Distinct(s: seq<nat>) {
    forall i, j :: 0 <= i < j < |s| ==> s[i] != s[j]
  }

  ghost function Elems(s: seq<nat>): set<nat> {
    set x | x in s
  }

  lemma {:induction false} DistinctCard(s: seq<nat>)
    requires Distinct(s)
    ensures |Elems(s)| == |s|
  {
    if s != [] {
      DistinctCard(s[1..]);
      assert Elems(s) == {s[0]} + Elems(s[1..]);
      assert s[0] !in Elems(s[1..]);
    }
  }

  /** The fold inside `cpm`: counts each position's first correct keystroke, remembering the
      positions already counted in `already`. */
  function CountRight(chars: seq<Char>, count: nat, already: seq<nat>): (r: (nat, seq<nat>))
    ensures count <= r.0 <= count + |chars|
    ensures already <= r.1
    ensures r.0 + |already| == count + |r.1|
    decreases |chars|
  {
    if chars == [] then (count, already)
    else
      match chars[0]
      case Ok(_, index, _) =>
        if index in already then CountRight(chars[1..], count, already)
        else CountRight(chars[1..], count + 1, already + [index])
      case Error(_, _, _, _) => CountRight(chars[1..], count, already)
  }

  /** What the fold keeps: the remembered positions stay distinct, grow by exactly the
      correct positions of the events, and the count grows with them. */
  lemma {:induction false} CountRightSpec(chars: seq<Char>, count: nat, already: seq<nat>)
    requires Distinct(already)
    ensures Distinct(CountRight(chars, count, already).1)
    ensures Elems(CountRight(chars, count, already).1) == Elems(already) + OkIndices(chars)
    ensures CountRight(chars, count, already).0 + |already| == count + |CountRight(chars, count, already).1|
    ensures CountRight(chars, count, already).0 <= count + |chars|
    decreases |chars|
  {
    if chars != [] {
      OkIndicesSplit(chars);
      match chars[0]
      case Ok(_, index, _) =>
        if index in already {
          CountRightSpec(chars[1..], count, already);
        } else {
          var more := already + [index];
          assert Elems(more) == Elems(already) + {index};
          CountRightSpec(chars[1..], count + 1, more);
        }
      case Error(_, _, _, _) =>
        CountRightSpec(chars[1..], count, already);
    }
  }

  /** The number of positions typed correctly at least once. */
  function RightChars(chars: seq<Char>): (n: nat)
    ensures n == |OkIndices(chars)|
    ensures n <= NumOk(chars) <= |chars|
  {
    CountRightSpec(chars, 0, []);
    RightCharsAtMostOkEvents(chars, 0, []);
    NumOkBounds(chars);
    assert Elems([]) == {};
    DistinctCard(CountRight(chars, 0, []).1);
    CountRight(chars, 0, []).0
  }

  /** Correct keystrokes at pairwise distinct positions are all counted. */
  lemma {:induction false} DistinctCorrectAllCount(chars: seq<Char>, count: nat, already: seq<nat>)
    requires forall k :: 0 <= k < |chars| ==> chars[k].Ok? && chars[k].index !in already
    requires forall k, l :: 0 <= k < l < |chars| ==> chars[k].index != chars[l].index
    ensures CountRight(chars, count, already).0 == count + |chars|
    decreases |chars|
  {
    if chars != [] {
      DistinctCorrectAllCount(chars[1..], count + 1, already + [chars[0].index]);
    }
  }

  /** `(right / minutes).round() as usize` for `elapsedMs` milliseconds: the nearest integer
      (halves rounded up), 0 for 0/0 (NaN), and `usize::MAX` for a positive count over no
      time (infinity) or a value too large for `usize` (the float-to-integer cast saturates). */
  function CpmValue(right: nat, elapsedMs: nat): (cpm: nat)
    ensures cpm <= UsizeMax
    ensures elapsedMs == 0 ==> cpm == (if right == 0 then 0 else UsizeMax)
    ensures elapsedMs > 0 && cpm < UsizeMax ==>
      cpm * (2 * elapsedMs) <= right * 120000 + elapsedMs < (cpm + 1) * (2 * elapsedMs)
    ensures elapsedMs > 0 && cpm == UsizeMax ==> UsizeMax * (2 * elapsedMs) <= right * 120000 + elapsedMs
  {
    if elapsedMs == 0 then (if right == 0 then 0 else UsizeMax)
    else
      var twice := 2 * elapsedMs;
      var n := (right * 120000 + elapsedMs) / twice;
      assert n * twice <= right * 120000 + elapsedMs < (n + 1) * twice;
      if n < UsizeMax then n else UsizeMax
  }

  /** The example of the source's test: ten correct characters over five seconds give
      120 characters and 24 words per minute. */
  lemma TenCharsInFiveSeconds(chars: seq<Char>)
    requires |chars| == 10
    requires forall k :: 0 <= k < 10 ==> chars[k].Ok? && chars[k].index == k
    ensures RightChars(chars) == 10
    ensures CpmValue(RightChars(chars), 5000) == 120
    ensures CpmValue(RightChars(chars), 5000) / 5 == 24
  {
    DistinctCorrectAllCount(chars, 0, []);
  }

  // ---------------------------------------------------------------------------
  // Accuracy

  /** The number of events satisfying Ok?. */
  function NumOk(chars: seq<Char>): nat {
    if chars == [] then 0 else (if chars[0].Ok? then 1 else 0) + NumOk(chars[1..])
  }

  /** `right_wrong_char_count`'s fold: adds the correct and the wrong events to the counters. */
  function RightWrong(chars: seq<Char>, right: nat, wrong: nat): (r: (nat, nat))
    ensures r.0 + r.1 == right + wrong + |chars|
    ensures r.0 == right + NumOk(chars)
    decreases |chars|
  {
    if chars == [] then (right, wrong)
    else
      match chars[0]
      case Ok(_, _, _) => RightWrong(chars[1..], right + 1, wrong)
      case Error(_, _, _, _) => RightWrong(chars[1..], right, wrong + 1)
  }

  /** A position counted once in `cpm` needs at least one correct event. */
  lemma {:induction false} RightCharsAtMostOkEvents(chars: seq<Char>, count: nat, already: seq<nat>)
    ensures CountRight(chars, count, already).0 <= count + NumOk(chars)
    decreases |chars|
  {
    if chars != [] {
      match chars[0]
      case Ok(_, index, _) =>
        if index in already {
          RightCharsAtMostOkEvents(chars[1..], count, already);
        } else {
          RightCharsAtMostOkEvents(chars[1..], count + 1, already + [index]);
        }
      case Error(_, _, _, _) =>
        RightCharsAtMostOkEvents(chars[1..], count, already);
    }
  }

  lemma {:induction false} NumOkBounds(chars: seq<Char>)
    ensures NumOk(chars) <= |chars|
    ensures NumOk(chars) == |chars| <==> forall k :: 0 <= k < |chars| ==> chars[k].Ok?
    ensures NumOk(chars) == 0 <==> forall k :: 0 <= k < |chars| ==> chars[k].Error?
  {
    if chars != [] {
      NumOkBounds(chars[1..]);
      assert forall k :: 1 <= k < |chars| ==> chars[k] == chars[1..][k - 1];
    }
  }

  /** `accuracy`: the percentage of correct events among all events, repeats included; `None`
      for no events, where the source divides 0 by 0. Floats are modelled as reals. */
  function Accuracy(chars: seq<Char>): (r: Option<real>)
    ensures r.None? <==> chars == []
    ensures r.Some? ==> 0.0 <= r.value <= 100.0
    ensures r.Some? ==> r.value * (|chars| as real) == (NumOk(chars) as real) * 100.0
    ensures r.Some? ==> (r.value == 100.0 <==> forall k :: 0 <= k < |chars| ==> chars[k].Ok?)
    ensures r.Some? ==> (r.value == 0.0 <==> forall k :: 0 <= k < |chars| ==> chars[k].Error?)
  {
    var (right, wrong) := RightWrong(chars, 0, 0);
    NumOkBounds(chars);
    if right + wrong == 0 then None
    else Some((right as real) / ((right + wrong) as real) * 100.0)
  }

  /** The example of the source's test: ten correct and five wrong keystrokes show as 66.67%. */
  lemma TenRightFiveWrong(chars: seq<Char>)
    requires |chars| == 15
    requires forall k :: 0 <= k < 10 ==> chars[k].Ok?
    requires forall k :: 10 <= k < 15 ==> chars[k].Error?
    ensures Accuracy(chars).Some?
    ensures 66.665 <= Accuracy(chars).value < 66.675
  {
    assert NumOk(chars[10..]) == 0 by { NumOkBounds(chars[10..]); }
    NumOkAppend(chars[..10], chars[10..]);
    assert chars[..10] + chars[10..] == chars;
    assert NumOk(chars[..10]) == 10 by { NumOkBounds(chars[..10]); }
  }

  lemma {:induction false} NumOkAppend(a: seq<Char>, b: seq<Char>)
    ensures NumOk(a + b) == NumOk(a) + NumOk(b)
  {
    if a != [] {
      NumOkAppend(a[1..], b);
      assert (a + b)[1..] == a[1..] + b;
    } else {
      assert a + b == b;
    }
  }

  // ---------------------------------------------------------------------------
  // The statistics object

  /** Start, end and last-keystroke timestamps and the append-only keystroke log. */
  class TestStatistics {
    var started: Option<int>
    var ended: Option<int>
    var lastCharTyped: Option<int>
    var chars: seq<Char>

    /** A keystroke is only ever recorded after the clock has been started. */
    ghost predicate Valid()
      reads this
    {
      lastCharTyped.Some? ==> started.Some?
    }

    /** No timestamps and no events. */
    predicate IsCleared()
      reads this
    {
      started.None? && ended.None? && lastCharTyped.None? && chars == []
    }

    /** `TestStatistics::new`. */
    constructor ()
      ensures Valid() && IsCleared()
    {
      started, ended, lastCharTyped, chars := None, None, None, [];
    }

    /** `reset`: back to the state `new` creates. */
    method Reset()
      modifies this
      ensures Valid() && IsCleared()
    {
      started, ended, lastCharTyped, chars := None, None, None, [];
    }

    /** `start`: stamps the start time. */
    method Start(now: int)
      requires Valid()
      modifies this
      ensures Valid()
      ensures started == Some(now)
      ensures ended == old(ended) && lastCharTyped == old(lastCharTyped) && chars == old(chars)
    {
      started := Some(now);
    }

    /** `end`: stamps the end time. */
    method End(now: int)
      requires Valid()
      modifies this
      ensures Valid()
      ensures ended == Some(now)
      ensures started == old(started) && lastCharTyped == old(lastCharTyped) && chars == old(chars)
    {
      ended := Some(now);
    }

    /** `started()`: the start time, stamping it with `now` first if the test has not started. */
    method Started(now: int) returns (t: int)
      requires Valid()
      modifies this
      ensures Valid()
      ensures started == Some(t)
      ensures old(started).Some? ==> t == old(started).value
      ensures old(started).None? ==> t == now
      ensures ended == old(ended) && lastCharTyped == old(lastCharTyped) && chars == old(chars)
    {
      match started
      case Some(time) => t := time;
      case None =>
        Start(now);
        t := started.value;
    }

    /** `last_char_typed()`: the time of the previous keystroke, else the start time
        (stamped with `now` if the test has not started). */
    method LastCharTyped(now: int) returns (t: int)
      requires Valid()
      modifies this
      ensures Valid() && started.Some?
      ensures old(lastCharTyped).Some? ==> t == old(lastCharTyped).value && started == old(started)
      ensures old(lastCharTyped).None? && old(started).Some? ==> t == old(started).value && started == old(started)
      ensures old(started).None? ==> t == now && started == Some(now)
      ensures ended == old(ended) && lastCharTyped == old(lastCharTyped) && chars == old(chars)
    {
      match lastCharTyped
      case Some(time) => t := time;
      case None => t := Started(now);
    }

    /** `ended_or_now()`: the end time, or `now` while the test runs. */
    function EndedOrNow(now: int): (t: int)
      reads this
      ensures ended.Some? ==> t == ended.value
      ensures ended.None? ==> t == now
    {
      match ended
      case Some(time) => time
      case None => now
    }

    /** `new_char`: appends one event for the keystroke at `now`, timed from the previous
        keystroke or, for the first one, from the start. The source reads the clock once for
        `now` and, when the test has not started, a second time inside `start()`; that second
        reading is `clockAtStart`. */
    method NewChar(index: nat, typed: char, actual: char, now: int, clockAtStart: int)
      requires Valid()
      modifies this
      ensures Valid()
      ensures chars == old(chars) + [CharEvent(
        Delay(now, if old(lastCharTyped).Some? then old(lastCharTyped).value
                   else if old(started).Some? then old(started).value
                   else clockAtStart),
        index, typed, actual)]
      ensures started == if old(started).Some? then old(started) else Some(clockAtStart)
      ensures lastCharTyped == Some(now)
      ensures ended == old(ended)
      ensures old(started).None? && clockAtStart >= now ==> chars[|chars| - 1].delay == 0
    {
      var last := LastCharTyped(clockAtStart);
      var diff := Delay(now, last);
      chars := chars + [CharEvent(diff, index, typed, actual)];
      lastCharTyped := Some(now);
    }

    /** `cpm`: 0 before the test has started; otherwise the positions typed correctly at least
        once, per minute from the start to the end (or `now`). The source unwraps the
        duration, so the end may not lie before the start. */
    function Cpm(now: int): (cpm: nat)
      reads this
      requires started.Some? ==> EndedOrNow(now) >= started.value
      ensures started.None? ==> cpm == 0
      ensures started.Some? ==>
        cpm == CpmValue(|OkIndices(chars)|, EndedOrNow(now) - started.value)
    {
      match started
      case None => 0
      case Some(start) =>
        var right := RightChars(chars);
        CpmValue(right, EndedOrNow(now) - start)
    }

    /** `wpm`: characters per minute over five, rounded down. */
    function Wpm(now: int): (wpm: nat)
      reads this
      requires started.Some? ==> EndedOrNow(now) >= started.value
      ensures wpm * 5 <= Cpm(now) < (wpm + 1) * 5
      ensures started.None? ==> wpm == 0
    {
      Cpm(now) / 5
    }

    /** `accuracy` of the recorded events. */
    function AccuracyNow(): (r: Option<real>)
      reads this
      ensures r.None? <==> chars == []
      ensures r.Some? ==> r.value * (|chars| as real) == (NumOk(chars) as real) * 100.0
    {
      Accuracy(chars)
    }
  }
}
