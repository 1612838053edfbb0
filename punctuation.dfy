/** Per-script punctuation tables and the prologue of the punctuation pass
    (src/monkeytype/punctuation.rs). */
module Punctuation {
  import Wrappers

  /** The decoration kinds, in declaration order. */
  datatype PunctuationKind =
    | AfterNumber | BetweenWordsWithSpace | EndOfWord | Upcase | AroundWord
    | BetweenWordsWithoutSpace | OtherKinds

  /** The `as usize` value of a kind: its position in the declaration. */
  function Ord(k: PunctuationKind): (o: nat)
    ensures o < 7
    ensures k == AfterNumber ==> o == 0
    ensures k == BetweenWordsWithSpace ==> o == 1
    ensures k == EndOfWord ==> o == 2
    ensures k == Upcase ==> o == 3
    ensures k == AroundWord ==> o == 4
    ensures k == BetweenWordsWithoutSpace ==> o == 5
    ensures k == OtherKinds ==> o == 6
  {
    match k
    case AfterNumber => 0
    case BetweenWordsWithSpace => 1
    case EndOfWord => 2
    case Upcase => 3
    case AroundWord => 4
    case BetweenWordsWithoutSpace => 5
    case OtherKinds => 6
  }

  /** Script families with their own punctuation conventions; `None` is the family of
      languages without one. */
  datatype PunctuationLanguage =
    | Latin | Chinese | Japanese | Korean | ArabicPersian | Hebrew | Devanagari | Thai
    | Burmese | Khmer | Ethiopic | Armenian | Greek | Mongolian | None

  /** Corpus languages. The full enumeration lives in a file that is not part of this model;
      these are representatives of every family and of the rows that cross families, and
      `Unlisted` stands for every language the mapping does not name. */
  datatype Language =
    | English | English1k | EnglishShakespearean | French | German | Georgian | Russian
    | Amharic | Arabic | Pashto | Urdish | Persian | PersianRomanized | Armenian
    | ArmenianWestern | Bangla | Hindi | Sanskrit | SanskritRoman | Tamil | Tibetan
    | Nepali | NepaliRomanized | ChineseSimplified | ChineseTraditional | Greek | Hebrew
    | Yiddish | JapaneseHiragana | JapaneseKatakana | JapaneseRomaji | JapaneseRomaji1k
    | Khmer | Korean | Mongolian | MyanmarBurmese | Thai | Thai60k
    | Belarusian | Bulgarian | Kazakh | Kyrgyz | Macedonian | Serbian | Tatar | Ukrainian
    | Gujarati | Telugu
    | Unlisted(tag: string)

  /** `From<Language> for PunctuationLanguage`. */
  function ScriptOf(lang: Language): (p: PunctuationLanguage)
    ensures lang.Unlisted? ==> p == None
    ensures lang == JapaneseHiragana || lang == JapaneseKatakana ==> p == Japanese
    ensures lang == JapaneseRomaji || lang == JapaneseRomaji1k ==> p == Latin
    ensures lang == Yiddish ==> p == PunctuationLanguage.Hebrew
    ensures lang in {Russian, Belarusian, Bulgarian, Kazakh, Kyrgyz, Macedonian, Serbian, Tatar, Ukrainian} ==> p == Latin
    ensures lang in {Bangla, Gujarati, Tamil, Telugu, Tibetan} ==> p == Devanagari
    ensures !lang.Unlisted? ==> p != None
  {
    match lang
    case English => Latin
    case English1k => Latin
    case EnglishShakespearean => Latin
    case French => Latin
    case German => Latin
    case Georgian => Latin
    case Russian => Latin
    case Amharic => Ethiopic
    case Arabic => ArabicPersian
    case Pashto => ArabicPersian
    case Urdish => ArabicPersian
    case Persian => ArabicPersian
    case PersianRomanized => Latin
    case Armenian => PunctuationLanguage.Armenian
    case ArmenianWestern => PunctuationLanguage.Armenian
    case Bangla => Devanagari
    case Hindi => Devanagari
    case Sanskrit => Devanagari
    case SanskritRoman => Latin
    case Tamil => Devanagari
    case Tibetan => Devanagari
    case Nepali => Devanagari
    case NepaliRomanized => Latin
    case ChineseSimplified => Chinese
    case ChineseTraditional => Chinese
    case Greek => PunctuationLanguage.Greek
    case Hebrew => PunctuationLanguage.Hebrew
    case Yiddish => PunctuationLanguage.Hebrew
    case JapaneseHiragana => Japanese
    case JapaneseKatakana => Japanese
    case JapaneseRomaji => Latin
    case JapaneseRomaji1k => Latin
    case Khmer => PunctuationLanguage.Khmer
    case Korean => PunctuationLanguage.Korean
    case Mongolian => PunctuationLanguage.Mongolian
    case MyanmarBurmese => Burmese
    case Thai => PunctuationLanguage.Thai
    case Thai60k => PunctuationLanguage.Thai
    case Belarusian => Latin
    case Bulgarian => Latin
    case Kazakh => Latin
    case Kyrgyz => Latin
    case Macedonian => Latin
    case Serbian => Latin
    case Tatar => Latin
    case Ukrainian => Latin
    case Gujarati => Devanagari
    case Telugu => Devanagari
    case Unlisted(_) => None
  }

  // Mark tables, one per (kind, script) pair that has marks.
  const LatinEndOfWord: seq<char> := ['.', ',', ';', ':', '?', '!', '-']
  const ChineseEndOfWord: seq<char> := ['。', '、']
  const JapaneseEndOfWord: seq<char> := ['。', '、']
  const KoreanEndOfWord: seq<char> := ['.', ',', '?', '!']
  const ArabicPersianEndOfWord: seq<char> := ['،', '؛', '؟']
  const HebrewEndOfWord: seq<char> := ['׃']
  const DevanagariEndOfWord: seq<char> := ['।', '॥']
  const ThaiEndOfWord: seq<char> := ['ฯ']
  const BurmeseEndOfWord: seq<char> := ['၊', '။']
  const KhmerEndOfWord: seq<char> := ['។', '៖']
  const EthiopicEndOfWord: seq<char> := ['።', '፣']
  const ArmenianEndOfWord: seq<char> := ['։', '՝', '՞']
  const GreekEndOfWord: seq<char> := ['.', ',', ';', '·']
  const MongolianEndOfWord: seq<char> := ['᠂', '᠃']

  const LatinAroundWord: seq<char> := ['\'', '"', '(', ')', '[', ']', '{', '}', '<', '>']
  const ChineseAroundWord: seq<char> := ['「', '」', '『', '』', '《', '》']
  const JapaneseAroundWord: seq<char> := ['「', '」', '『', '』', '《', '》']
  const ArabicPersianAroundWord: seq<char> := ['«', '»']
  const HebrewAroundWord: seq<char> := ['«', '»', '„', '”']
  const DevanagariAroundWord: seq<char> := ['(', ')']
  const EthiopicAroundWord: seq<char> := ['፨']
  const ArmenianAroundWord: seq<char> := ['«', '»']
  const GreekAroundWord: seq<char> := ['«', '»', '“', '”']
  const MongolianAroundWord: seq<char> := ['᠁']

  const LatinAfterNumber: seq<char> := ['%']
  const ArabicPersianAfterNumber: seq<char> := ['٪']

  const LatinBetweenWordsWithSpace: seq<char> := ['–', '&']
  const KoreanBetweenWordsWithSpace: seq<char> := ['·']

  const LatinBetweenWordsWithoutSpace: seq<char> := ['-', '/']
  const ThaiBetweenWordsWithoutSpace: seq<char> := ['ๆ']
  const KhmerBetweenWordsWithoutSpace: seq<char> := ['々']

  const LatinOtherKinds: seq<char> := ['@', '#', '*', '^', '_']
  const ChineseOtherKinds: seq<char> := ['〜']
  const EthiopicOtherKinds: seq<char> := ['፨']
  const ArmenianOtherKinds: seq<char> := ['՛']
  const GreekOtherKinds: seq<char> := ['·']

  /** `get_punctuation`: the marks a script uses for a kind of decoration; empty when the
      script has no entry for that kind. */
  function GetPunctuation(kind: PunctuationKind, script: PunctuationLanguage): (marks: seq<char>)
    ensures kind == Upcase ==> marks == []
    ensures script == None ==> marks == []
    ensures kind == EndOfWord ==> (marks != [] <==> script != None)
    ensures kind == AfterNumber ==> (marks != [] <==> script == Latin || script == ArabicPersian)
    ensures kind == AfterNumber && script == Latin ==> marks == ['%']
    ensures kind == AfterNumber && script == ArabicPersian ==> marks == ['٪']
    ensures kind == AroundWord && script in {Devanagari, PunctuationLanguage.Thai, Burmese, PunctuationLanguage.Khmer} ==> marks == ['(', ')']
    ensures kind == AroundWord ==> (marks != [] <==> script !in {PunctuationLanguage.Korean, None})
    ensures kind == OtherKinds && script in {Chinese, Japanese, PunctuationLanguage.Korean} ==> marks == ['〜']
    ensures kind == BetweenWordsWithSpace ==> (marks != [] <==> script == Latin || script == PunctuationLanguage.Korean)
    ensures kind == BetweenWordsWithoutSpace ==>
      (marks != [] <==> script == Latin || script == PunctuationLanguage.Thai || script == PunctuationLanguage.Khmer)
  {
    match kind
    case EndOfWord =>
      (match script
       case Latin => LatinEndOfWord
       case Chinese => ChineseEndOfWord
       case Japanese => JapaneseEndOfWord
       case Korean => KoreanEndOfWord
       case ArabicPersian => ArabicPersianEndOfWord
       case Hebrew => HebrewEndOfWord
       case Devanagari => DevanagariEndOfWord
       case Thai => ThaiEndOfWord
       case Burmese => BurmeseEndOfWord
       case Khmer => KhmerEndOfWord
       case Ethiopic => EthiopicEndOfWord
       case Armenian => ArmenianEndOfWord
       case Greek => GreekEndOfWord
       case Mongolian => MongolianEndOfWord
       case _ => [])
    case AroundWord =>
      (match script
       case Latin => LatinAroundWord
       case Chinese => ChineseAroundWord
       case Japanese => JapaneseAroundWord
       case ArabicPersian => ArabicPersianAroundWord
       case Hebrew => HebrewAroundWord
       case Devanagari | Thai | Burmese | Khmer => DevanagariAroundWord
       case Ethiopic => EthiopicAroundWord
       case Armenian => ArmenianAroundWord
       case Greek => GreekAroundWord
       case Mongolian => MongolianAroundWord
       case _ => [])
    case AfterNumber =>
      (match script
       case Latin => LatinAfterNumber
       case ArabicPersian => ArabicPersianAfterNumber
       case _ => [])
    case BetweenWordsWithSpace =>
      (match script
       case Latin => LatinBetweenWordsWithSpace
       case Korean => KoreanBetweenWordsWithSpace
       case _ => [])
    case BetweenWordsWithoutSpace =>
      (match script
       case Latin => LatinBetweenWordsWithoutSpace
       case Thai => ThaiBetweenWordsWithoutSpace
       case Khmer => KhmerBetweenWordsWithoutSpace
       case _ => [])
    case OtherKinds =>
      (match script
       case Latin => LatinOtherKinds
       case Chinese | Japanese | Korean => ChineseOtherKinds
       case Ethiopic => EthiopicOtherKinds
       case Armenian => ArmenianOtherKinds
       case Greek => GreekOtherKinds
       case _ => [])
    case _ => []
  }

  /** Every language named by the mapping gets end-of-word marks; unnamed ones get none. */
  lemma EndOfWordForLanguages(lang: Language)
    ensures GetPunctuation(EndOfWord, ScriptOf(lang)) != [] <==> !lang.Unlisted?
  {
  }

  /** `percentage.min(100)`. */
  function ClampPercentage(percentage: nat): (p: nat)
    ensures p <= 100
    ensures percentage <= 100 ==> p == percentage
    ensures percentage > 100 ==> p == 100
  {
    if percentage < 100 then percentage else 100
  }

  /** Distinct kinds have distinct sort keys, so sorting by key orders the kinds totally. */
  lemma OrdInjective(j: PunctuationKind, k: PunctuationKind)
    requires j != k
    ensures Ord(j) != Ord(k)
  {
  }

  predicate SortedByOrd(s: seq<PunctuationKind>) {
    forall i, j :: 0 <= i < j < |s| ==> Ord(s[i]) <= Ord(s[j])
  }

  /** Exchanges `a[j - 1]` and `a[j]`. */
  method Swap(a: array<PunctuationKind>, j: nat)
    requires 0 < j < a.Length
    modifies a
    ensures a[j - 1] == old(a[j]) && a[j] == old(a[j - 1])
    ensures forall k :: 0 <= k < a.Length && k != j - 1 && k != j ==> a[k] == old(a[k])
    ensures multiset(a[..]) == multiset(old(a[..]))
  {
    a[j - 1], a[j] := a[j], a[j - 1];
  }

  /** Moves `a[i]` down into the sorted prefix `a[..i]`. */
  method SinkLast(a: array<PunctuationKind>, i: nat)
    requires i < a.Length
    requires SortedByOrd(a[..i])
    modifies a
    ensures SortedByOrd(a[..i + 1])
    ensures forall k :: i < k < a.Length ==> a[k] == old(a[k])
    ensures multiset(a[..]) == multiset(old(a[..]))
  {
    var j := i;
    while j > 0 && Ord(a[j - 1]) > Ord(a[j])
      invariant 0 <= j <= i
      invariant forall p, q :: 0 <= p < q <= i && p != j && q != j ==> Ord(a[p]) <= Ord(a[q])
      invariant forall q :: j < q <= i ==> Ord(a[j]) < Ord(a[q])
      invariant forall k :: i < k < a.Length ==> a[k] == old(a[k])
      invariant multiset(a[..]) == multiset(old(a[..]))
    {
      Swap(a, j);
      j := j - 1;
    }
  }

  /** `kinds.sort_by_key(|k| *k as usize)`, as an insertion sort by adjacent swaps. */
  method SortKinds(a: array<PunctuationKind>)
    modifies a
    ensures SortedByOrd(a[..])
    ensures multiset(a[..]) == multiset(old(a[..]))
  {
    var i := 0;
    while i < a.Length
      invariant 0 <= i <= a.Length
      invariant SortedByOrd(a[..i])
      invariant multiset(a[..]) == multiset(old(a[..]))
    {
      SinkLast(a, i);
      i := i + 1;
    }
    assert a[..a.Length] == a[..];
  }

  /** The panic an unwritten kind arm raises (`todo!()`). */
  datatype Unimplemented = Todo(kind: PunctuationKind)

  /** `apply`: sorts the kinds and clamps the percentage, then reaches the first kind's arm,
      which is `todo!()`; with no kinds it returns an empty word list. */
  method Apply(words: seq<string>, language: Language, kinds: seq<PunctuationKind>, percentage: nat)
    returns (r: Wrappers.Result<seq<string>, Unimplemented>)
    ensures r.Success? <==> kinds == []
    ensures r.Success? ==> r.value == []
    ensures r.Failure? ==> r.error.kind in kinds
    ensures r.Failure? ==> forall k :: k in kinds ==> Ord(r.error.kind) <= Ord(k)
  {
    var script := ScriptOf(language);
    var applyPercentage := ClampPercentage(percentage);
    var sorted := new PunctuationKind[|kinds|](i requires 0 <= i < |kinds| => kinds[i]);
    assert sorted[..] == kinds;
    SortKinds(sorted);
    if sorted.Length > 0 {
      var first := sorted[0];
      assert first in multiset(sorted[..]);
      forall k | k in kinds ensures Ord(first) <= Ord(k) {
        assert k in multiset(sorted[..]);
        var m :| 0 <= m < sorted.Length && sorted[m] == k;
        assert m == 0 || Ord(sorted[0]) <= Ord(sorted[m]);
      }
      return Wrappers.Failure(Todo(first));
    }
    return Wrappers.Success([]);
  }
}
