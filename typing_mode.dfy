/** Test modes: quote-length buckets, time and word-count settings (src/typing/mode.rs). */
module TypingMode {

  /** Quote length buckets; every bucket but `All` carries its inclusive upper bound as its discriminant. */
  datatype QuoteLength = All | Short | Medium | Long | Thicc

  /** The `as usize` value of each bucket. */
  function Discriminant(q: QuoteLength): (d: nat)
    ensures q == All ==> d == 0
    ensures q == Short ==> d == 100
    ensures q == Medium ==> d == 300
    ensures q == Long ==> d == 600
    ensures q == Thicc ==> d == 9999
  {
    match q
    case All => 0
    case Short => 100
    case Medium => 300
    case Long => 600
    case Thicc => 9999
  }

  /** Position of a bucket in the order Short < Medium < Long < Thicc (All is placed first). */
  function Rank(q: QuoteLength): nat {
    match q
    case All => 0
    case Short => 1
    case Medium => 2
    case Long => 3
    case Thicc => 4
  }

  /** `From<usize>`: the first bucket whose discriminant is at least the length. */
  function FromLength(length: nat): (q: QuoteLength)
    ensures q != All
    ensures q == Short <==> length <= 100
    ensures q == Medium <==> 100 < length <= 300
    ensures q == Long <==> 300 < length <= 600
    ensures q == Thicc <==> 600 < length
    ensures length <= 600 ==> length <= Discriminant(q)
  {
    if length <= Discriminant(Short) then Short
    else if length <= Discriminant(Medium) then Medium
    else if length <= Discriminant(Long) then Long
    else Thicc
  }

  /** A longer quote never falls into a smaller bucket. */
  lemma FromLengthMonotone(a: nat, b: nat)
    requires a <= b
    ensures Rank(FromLength(a)) <= Rank(FromLength(b))
  {
  }

  /** Every bucket except `All` is reached by some length, namely its own discriminant. */
  lemma FromLengthOfDiscriminant(q: QuoteLength)
    requires q != All
    ensures FromLength(Discriminant(q)) == q
  {
  }

  /** `Display` for QuoteLength. */
  function QuoteLengthName(q: QuoteLength): (s: string)
    ensures q == All ==> s == "all"
    ensures q == Short ==> s == "short"
    ensures q == Medium ==> s == "medium"
    ensures q == Long ==> s == "long"
    ensures q == Thicc ==> s == "thicc"
  {
    match q
    case All => "all"
    case Short => "short"
    case Medium => "medium"
    case Long => "long"
    case Thicc => "thicc"
  }

  /** Distinct buckets have distinct display names. */
  lemma QuoteLengthNamesDistinct(p: QuoteLength, q: QuoteLength)
    requires p != q
    ensures QuoteLengthName(p) != QuoteLengthName(q)
  {
  }

  /** Time-mode durations in seconds. */
  datatype Seconds = S15 | S30 | S60 | S120 | CustomSeconds(secs: nat)

  /** `Seconds::as_usize`. */
  function SecondsValue(s: Seconds): (n: nat)
    ensures s == S15 ==> n == 15
    ensures s == S30 ==> n == 30
    ensures s == S60 ==> n == 60
    ensures s == S120 ==> n == 120
    ensures s.CustomSeconds? ==> n == s.secs
  {
    match s
    case S15 => 15
    case S30 => 30
    case S60 => 60
    case S120 => 120
    case CustomSeconds(secs) => secs
  }

  /** Word-count-mode lengths. */
  datatype WordCount = W10 | W25 | W50 | W100 | CustomWords(words: nat)

  /** `WordCount::as_usize`. */
  function WordCountValue(w: WordCount): (n: nat)
    ensures w == W10 ==> n == 10
    ensures w == W25 ==> n == 25
    ensures w == W50 ==> n == 50
    ensures w == W100 ==> n == 100
    ensures w.CustomWords? ==> n == w.words
  {
    match w
    case W10 => 10
    case W25 => 25
    case W50 => 50
    case W100 => 100
    case CustomWords(words) => words
  }

  /** The decimal digits of `n`, as `write!(f, "{}", n)` prints them. */
  function DecimalString(n: nat): (s: string)
    ensures |s| >= 1 && IsDigits(s)
    ensures n >= 10 ==> s[0] != '0'
    ensures n < 10 ==> |s| == 1
    decreases n
  {
    if n < 10 then [DigitChar(n)] else DecimalString(n / 10) + [DigitChar(n % 10)]
  }

  function DigitChar(d: nat): (c: char)
    requires d < 10
    ensures '0' <= c <= '9'
  {
    (d + '0' as int) as char
  }

  predicate IsDigits(s: string) {
    forall i :: 0 <= i < |s| ==> '0' <= s[i] <= '9'
  }

  /** The value of a string of decimal digits. */
  function DecimalValue(s: string): nat
    requires IsDigits(s)
  {
    if s == [] then 0
    else 10 * DecimalValue(s[..|s| - 1]) + (s[|s| - 1] as int - '0' as int)
  }

  /** Reading back the printed digits gives the number. */
  lemma {:induction false} DecimalRoundTrip(n: nat)
    ensures DecimalValue(DecimalString(n)) == n
    decreases n
  {
    var s := DecimalString(n);
    if n >= 10 {
      DecimalRoundTrip(n / 10);
      assert s[..|s| - 1] == DecimalString(n / 10);
    }
  }

  /** `Display` for Seconds: its value in decimal. */
  function SecondsName(s: Seconds): (r: string)
    ensures IsDigits(r) && DecimalValue(r) == SecondsValue(s)
    ensures |r| >= 1 && (|r| == 1 || r[0] != '0')
  {
    DecimalRoundTrip(SecondsValue(s));
    DecimalString(SecondsValue(s))
  }

  /** `Display` for WordCount: its value in decimal. */
  function WordCountName(w: WordCount): (r: string)
    ensures IsDigits(r) && DecimalValue(r) == WordCountValue(w)
    ensures |r| >= 1 && (|r| == 1 || r[0] != '0')
  {
    DecimalRoundTrip(WordCountValue(w));
    DecimalString(WordCountValue(w))
  }

  /** A test mode: a duration, a word count, or the admissible quote buckets. */
  datatype Mode = Time(seconds: Seconds) | Words(count: WordCount) | Quote(lengths: seq<QuoteLength>)

  /** `Mode::default()`: a 60-second timed test. */
  function DefaultMode(): (m: Mode)
    ensures m == Time(S60)
    ensures m.Time? && SecondsValue(m.seconds) == 60
  {
    Time(S60)
  }
}
