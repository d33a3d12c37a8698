/**
 * The static character table of the text preprocessor and the five lookups
 * derived from it (charmap.go). A rune is a Dafny `char`; the table is keyed
 * by the rune's code point so that each entry can be matched by the solver
 * without unfolding the whole table.
 */
module CharMap {
  import opened Wrappers

  /** The five rune classes of the table. */
  datatype Class = EnglishLetter | EnglishDigit | ArabicOrFarsiLetter | ArabicOrFarsiDigit | Tashkil

  /** One table entry: the class and the rune that replaces it in a word. */
  datatype Attrib = Attrib(kind: Class, normalized: char)

  /**
   * The `charmap` literal, entry by entry and in the source's order. The
   * tashkil entries leave `Normalized` unset, so they carry Go's zero rune.
   * A rune absent from the table has no entry.
   */
  function Lookup(r: char): Option<Attrib>
  {
    match r as int
      case 0x0041 => Some(Attrib(EnglishLetter, 'a'))  // 'A'
      case 0x0042 => Some(Attrib(EnglishLetter, 'b'))  // 'B'
      case 0x0043 => Some(Attrib(EnglishLetter, 'c'))  // 'C'
      case 0x0044 => Some(Attrib(EnglishLetter, 'd'))  // 'D'
      case 0x0045 => Some(Attrib(EnglishLetter, 'e'))  // 'E'
      case 0x0046 => Some(Attrib(EnglishLetter, 'f'))  // 'F'
      case 0x0047 => Some(Attrib(EnglishLetter, 'g'))  // 'G'
      case 0x0048 => Some(Attrib(EnglishLetter, 'h'))  // 'H'
      case 0x0049 => Some(Attrib(EnglishLetter, 'i'))  // 'I'
      case 0x004A => Some(Attrib(EnglishLetter, 'j'))  // 'J'
      case 0x004B => Some(Attrib(EnglishLetter, 'k'))  // 'K'
      case 0x004C => Some(Attrib(EnglishLetter, 'l'))  // 'L'
      case 0x004D => Some(Attrib(EnglishLetter, 'm'))  // 'M'
      case 0x004E => Some(Attrib(EnglishLetter, 'n'))  // 'N'
      case 0x004F => Some(Attrib(EnglishLetter, 'o'))  // 'O'
      case 0x0050 => Some(Attrib(EnglishLetter, 'p'))  // 'P'
      case 0x0051 => Some(Attrib(EnglishLetter, 'q'))  // 'Q'
      case 0x0052 => Some(Attrib(EnglishLetter, 'r'))  // 'R'
      case 0x0053 => Some(Attrib(EnglishLetter, 's'))  // 'S'
      case 0x0054 => Some(Attrib(EnglishLetter, 't'))  // 'T'
      case 0x0055 => Some(Attrib(EnglishLetter, 'u'))  // 'U'
      case 0x0056 => Some(Attrib(EnglishLetter, 'v'))  // 'V'
      case 0x0057 => Some(Attrib(EnglishLetter, 'w'))  // 'W'
      case 0x0058 => Some(Attrib(EnglishLetter, 'x'))  // 'X'
      case 0x0059 => Some(Attrib(EnglishLetter, 'y'))  // 'Y'
      case 0x005A => Some(Attrib(EnglishLetter, 'z'))  // 'Z'
      case 0x0061 => Some(Attrib(EnglishLetter, 'a'))  // 'a'
      case 0x0062 => Some(Attrib(EnglishLetter, 'b'))  // 'b'
      case 0x0063 => Some(Attrib(EnglishLetter, 'c'))  // 'c'
      case 0x0064 => Some(Attrib(EnglishLetter, 'd'))  // 'd'
      case 0x0065 => Some(Attrib(EnglishLetter, 'e'))  // 'e'
      case 0x0066 => Some(Attrib(EnglishLetter, 'f'))  // 'f'
      case 0x0067 => Some(Attrib(EnglishLetter, 'g'))  // 'g'
      case 0x0068 => Some(Attrib(EnglishLetter, 'h'))  // 'h'
      case 0x0069 => Some(Attrib(EnglishLetter, 'i'))  // 'i'
      case 0x006A => Some(Attrib(EnglishLetter, 'j'))  // 'j'
      case 0x006B => Some(Attrib(EnglishLetter, 'k'))  // 'k'
      case 0x006C => Some(Attrib(EnglishLetter, 'l'))  // 'l'
      case 0x006D => Some(Attrib(EnglishLetter, 'm'))  // 'm'
      case 0x006E => Some(Attrib(EnglishLetter, 'n'))  // 'n'
      case 0x006F => Some(Attrib(EnglishLetter, 'o'))  // 'o'
      case 0x0070 => Some(Attrib(EnglishLetter, 'p'))  // 'p'
      case 0x0071 => Some(Attrib(EnglishLetter, 'q'))  // 'q'
      case 0x0072 => Some(Attrib(EnglishLetter, 'r'))  // 'r'
      case 0x0073 => Some(Attrib(EnglishLetter, 's'))  // 's'
      case 0x0074 => Some(Attrib(EnglishLetter, 't'))  // 't'
      case 0x0075 => Some(Attrib(EnglishLetter, 'u'))  // 'u'
      case 0x0076 => Some(Attrib(EnglishLetter, 'v'))  // 'v'
      case 0x0077 => Some(Attrib(EnglishLetter, 'w'))  // 'w'
      case 0x0078 => Some(Attrib(EnglishLetter, 'x'))  // 'x'
      case 0x0079 => Some(Attrib(EnglishLetter, 'y'))  // 'y'
      case 0x007A => Some(Attrib(EnglishLetter, 'z'))  // 'z'
      case 0x0030 => Some(Attrib(EnglishDigit, '0'))  // '0'
      case 0x0031 => Some(Attrib(EnglishDigit, '1'))  // '1'
      case 0x0032 => Some(Attrib(EnglishDigit, '2'))  // '2'
      case 0x0033 => Some(Attrib(EnglishDigit, '3'))  // '3'
      case 0x0034 => Some(Attrib(EnglishDigit, '4'))  // '4'
      case 0x0035 => Some(Attrib(EnglishDigit, '5'))  // '5'
      case 0x0036 => Some(Attrib(EnglishDigit, '6'))  // '6'
      case 0x0037 => Some(Attrib(EnglishDigit, '7'))  // '7'
      case 0x0038 => Some(Attrib(EnglishDigit, '8'))  // '8'
      case 0x0039 => Some(Attrib(EnglishDigit, '9'))  // '9'
      case 0x0622 => Some(Attrib(ArabicOrFarsiLetter, '\U{0627}'))
      case 0x0623 => Some(Attrib(ArabicOrFarsiLetter, '\U{0627}'))
      case 0x0624 => Some(Attrib(ArabicOrFarsiLetter, '\U{0648}'))
      case 0x0625 => Some(Attrib(ArabicOrFarsiLetter, '\U{0627}'))
      case 0x0626 => Some(Attrib(ArabicOrFarsiLetter, '\U{06CC}'))
      case 0x0627 => Some(Attrib(ArabicOrFarsiLetter, '\U{0627}'))
      case 0x0628 => Some(Attrib(ArabicOrFarsiLetter, '\U{0628}'))
      case 0x0629 => Some(Attrib(ArabicOrFarsiLetter, '\U{062A}'))
      case 0x062A => Some(Attrib(ArabicOrFarsiLetter, '\U{062A}'))
      case 0x062B => Some(Attrib(ArabicOrFarsiLetter, '\U{062B}'))
      case 0x062C => Some(Attrib(ArabicOrFarsiLetter, '\U{062C}'))
      case 0x062D => Some(Attrib(ArabicOrFarsiLetter, '\U{062D}'))
      case 0x062E => Some(Attrib(ArabicOrFarsiLetter, '\U{062E}'))
      case 0x062F => Some(Attrib(ArabicOrFarsiLetter, '\U{062F}'))
      case 0x0630 => Some(Attrib(ArabicOrFarsiLetter, '\U{0630}'))
      case 0x0631 => Some(Attrib(ArabicOrFarsiLetter, '\U{0631}'))
      case 0x0632 => Some(Attrib(ArabicOrFarsiLetter, '\U{0632}'))
      case 0x0633 => Some(Attrib(ArabicOrFarsiLetter, '\U{0633}'))
      case 0x0634 => Some(Attrib(ArabicOrFarsiLetter, '\U{0634}'))
      case 0x0635 => Some(Attrib(ArabicOrFarsiLetter, '\U{0635}'))
      case 0x0636 => Some(Attrib(ArabicOrFarsiLetter, '\U{0636}'))
      case 0x0637 => Some(Attrib(ArabicOrFarsiLetter, '\U{0637}'))
      case 0x0638 => Some(Attrib(ArabicOrFarsiLetter, '\U{0638}'))
      case 0x0639 => Some(Attrib(ArabicOrFarsiLetter, '\U{0639}'))
      case 0x063A => Some(Attrib(ArabicOrFarsiLetter, '\U{063A}'))
      case 0x0641 => Some(Attrib(ArabicOrFarsiLetter, '\U{0641}'))
      case 0x0642 => Some(Attrib(ArabicOrFarsiLetter, '\U{0642}'))
      case 0x0643 => Some(Attrib(ArabicOrFarsiLetter, '\U{06A9}'))
      case 0x0644 => Some(Attrib(ArabicOrFarsiLetter, '\U{0644}'))
      case 0x0645 => Some(Attrib(ArabicOrFarsiLetter, '\U{0645}'))
      case 0x0646 => Some(Attrib(ArabicOrFarsiLetter, '\U{0646}'))
      case 0x0647 => Some(Attrib(ArabicOrFarsiLetter, '\U{0647}'))
      case 0x0648 => Some(Attrib(ArabicOrFarsiLetter, '\U{0648}'))
      case 0x0649 => Some(Attrib(ArabicOrFarsiLetter, '\U{06CC}'))
      case 0x064A => Some(Attrib(ArabicOrFarsiLetter, '\U{06CC}'))
      case 0x067E => Some(Attrib(ArabicOrFarsiLetter, '\U{067E}'))
      case 0x0686 => Some(Attrib(ArabicOrFarsiLetter, '\U{0686}'))
      case 0x0698 => Some(Attrib(ArabicOrFarsiLetter, '\U{0698}'))
      case 0x06A9 => Some(Attrib(ArabicOrFarsiLetter, '\U{06A9}'))
      case 0x06AF => Some(Attrib(ArabicOrFarsiLetter, '\U{06AF}'))
      case 0x06CC => Some(Attrib(ArabicOrFarsiLetter, '\U{06CC}'))
      case 0x0660 => Some(Attrib(ArabicOrFarsiDigit, '0'))
      case 0x0661 => Some(Attrib(ArabicOrFarsiDigit, '1'))
      case 0x0662 => Some(Attrib(ArabicOrFarsiDigit, '2'))
      case 0x0663 => Some(Attrib(ArabicOrFarsiDigit, '3'))
      case 0x0664 => Some(Attrib(ArabicOrFarsiDigit, '4'))
      case 0x0665 => Some(Attrib(ArabicOrFarsiDigit, '5'))
      case 0x0666 => Some(Attrib(ArabicOrFarsiDigit, '6'))
      case 0x0667 => Some(Attrib(ArabicOrFarsiDigit, '7'))
      case 0x0668 => Some(Attrib(ArabicOrFarsiDigit, '8'))
      case 0x0669 => Some(Attrib(ArabicOrFarsiDigit, '9'))
      case 0x06F0 => Some(Attrib(ArabicOrFarsiDigit, '0'))
      case 0x06F1 => Some(Attrib(ArabicOrFarsiDigit, '1'))
      case 0x06F2 => Some(Attrib(ArabicOrFarsiDigit, '2'))
      case 0x06F3 => Some(Attrib(ArabicOrFarsiDigit, '3'))
      case 0x06F4 => Some(Attrib(ArabicOrFarsiDigit, '4'))
      case 0x06F5 => Some(Attrib(ArabicOrFarsiDigit, '5'))
      case 0x06F6 => Some(Attrib(ArabicOrFarsiDigit, '6'))
      case 0x06F7 => Some(Attrib(ArabicOrFarsiDigit, '7'))
      case 0x06F8 => Some(Attrib(ArabicOrFarsiDigit, '8'))
      case 0x06F9 => Some(Attrib(ArabicOrFarsiDigit, '9'))
      case 0x0621 => Some(Attrib(Tashkil, '\0'))
      case 0x0640 => Some(Attrib(Tashkil, '\0'))
      case 0x064B => Some(Attrib(Tashkil, '\0'))
      case 0x064C => Some(Attrib(Tashkil, '\0'))
      case 0x064D => Some(Attrib(Tashkil, '\0'))
      case 0x064E => Some(Attrib(Tashkil, '\0'))
      case 0x064F => Some(Attrib(Tashkil, '\0'))
      case 0x0650 => Some(Attrib(Tashkil, '\0'))
      case 0x0651 => Some(Attrib(Tashkil, '\0'))
      case 0x0652 => Some(Attrib(Tashkil, '\0'))
      case _ => None
  }

  predicate IsEnglishLetter(r: char)
  {
    Lookup(r).Some? && Lookup(r).value.kind == EnglishLetter
  }

  predicate IsArabicOrFarsiLetter(r: char)
  {
    Lookup(r).Some? && Lookup(r).value.kind == ArabicOrFarsiLetter
  }

  predicate IsTashkil(r: char)
  {
    Lookup(r).Some? && Lookup(r).value.kind == Tashkil
  }

  /** True for the English digits and for both Arabic and Farsi digit blocks. */
  predicate IsDigit(r: char)
  {
    Lookup(r).Some? && (Lookup(r).value.kind == EnglishDigit || Lookup(r).value.kind == ArabicOrFarsiDigit)
  }

  /** The table's replacement rune; a rune absent from the table is kept. */
  function Normalize(r: char): char
  {
    if Lookup(r).Some? then Lookup(r).value.normalized else r
  }

  /** No rune belongs to two of the four classes the tokenizer asks about. */
  lemma ClassesExclusive(r: char)
    ensures IsEnglishLetter(r) ==> !IsArabicOrFarsiLetter(r) && !IsTashkil(r) && !IsDigit(r)
    ensures IsArabicOrFarsiLetter(r) ==> !IsTashkil(r) && !IsDigit(r)
    ensures IsTashkil(r) ==> !IsDigit(r)
  {
  }

  /** The space is not in the table. */
  lemma SpaceIsUnlisted()
    ensures Lookup(' ').None?
  {
  }

  /** A rune the table does not list fails every predicate and is left as it is. */
  lemma UnlistedRunePassesThrough(r: char)
    requires Lookup(r).None?
    ensures !IsEnglishLetter(r) && !IsArabicOrFarsiLetter(r) && !IsTashkil(r) && !IsDigit(r)
    ensures Normalize(r) == r
  {
  }

  lemma NormalizeIdempotent(r: char)
    ensures Normalize(Normalize(r)) == Normalize(r)
  {
  }

  /** Upper-case English letters fold to lower case; lower-case letters and digits are kept. */
  lemma NormalizeFoldsEnglish(r: char)
    ensures 'A' <= r <= 'Z' ==> IsEnglishLetter(r) && Normalize(r) as int == r as int + 32
    ensures 'a' <= r <= 'z' ==> IsEnglishLetter(r) && Normalize(r) == r
    ensures '0' <= r <= '9' ==> IsDigit(r) && Normalize(r) == r
  {
  }

  /** Arabic-Indic (U+0660..U+0669) and Farsi (U+06F0..U+06F9) digits become ASCII digits. */
  lemma NormalizeFoldsEasternDigits(r: char)
    ensures '\U{0660}' <= r <= '\U{0669}' ==> IsDigit(r) && Normalize(r) as int == '0' as int + (r as int - 0x0660)
    ensures '\U{06F0}' <= r <= '\U{06F9}' ==> IsDigit(r) && Normalize(r) as int == '0' as int + (r as int - 0x06F0)
  {
  }

  /** The letter variants the table folds onto one Farsi letter. */
  lemma NormalizeFoldsLetterVariants(r: char)
    ensures r == '\U{0622}' || r == '\U{0623}' || r == '\U{0625}' ==> Normalize(r) == '\U{0627}'
    ensures r == '\U{0626}' || r == '\U{0649}' || r == '\U{064A}' ==> Normalize(r) == '\U{06CC}'
    ensures r == '\U{0624}' ==> Normalize(r) == '\U{0648}'
    ensures r == '\U{0629}' ==> Normalize(r) == '\U{062A}'
    ensures r == '\U{0643}' ==> Normalize(r) == '\U{06A9}'
  {
  }

  /** Normalising keeps the class the tokenizer sees. */
  lemma NormalizePreservesClass(r: char)
    ensures IsEnglishLetter(r) ==> IsEnglishLetter(Normalize(r))
    ensures IsArabicOrFarsiLetter(r) ==> IsArabicOrFarsiLetter(Normalize(r))
    ensures IsDigit(r) ==> IsDigit(Normalize(r))
    ensures IsEnglishLetter(r) || IsArabicOrFarsiLetter(r) || IsDigit(r) ==> !IsTashkil(Normalize(r))
  {
    var n := Normalize(r);
    NormalizeImage(r);
    NormalizeFoldsEnglish(n);
    FarsiLettersAreLetters(n);
    ClassesExclusive(n);
  }

  /**
   * The 32 letters of the Farsi alphabet that Arabic and Farsi letters
   * normalise onto, by code point.
   */
  predicate IsFarsiLetter(c: int)
  {
    IsFarsiLetterLow(c) || IsFarsiLetterHigh(c)
  }

  predicate IsFarsiLetterLow(c: int)
  {
    c == 0x0627 || c == 0x0628 || c == 0x062A || c == 0x062B
      || c == 0x062C || c == 0x062D || c == 0x062E || c == 0x062F
      || c == 0x0630 || c == 0x0631 || c == 0x0632 || c == 0x0633
      || c == 0x0634 || c == 0x0635 || c == 0x0636 || c == 0x0637
  }

  predicate IsFarsiLetterHigh(c: int)
  {
    c == 0x0638 || c == 0x0639 || c == 0x063A || c == 0x0641
      || c == 0x0642 || c == 0x0644 || c == 0x0645 || c == 0x0646
      || c == 0x0647 || c == 0x0648 || c == 0x067E || c == 0x0686
      || c == 0x0698 || c == 0x06A9 || c == 0x06AF || c == 0x06CC
  }

  /** Where each class lands: lower-case letters, ASCII digits, the Farsi alphabet. */
  lemma NormalizeImage(r: char)
    ensures IsEnglishLetter(r) ==> 'a' <= Normalize(r) <= 'z'
    ensures IsDigit(r) ==> '0' <= Normalize(r) <= '9'
    ensures IsArabicOrFarsiLetter(r) ==> IsFarsiLetter(Normalize(r) as int)
  {
  }

  /** Every letter of the Farsi alphabet is listed as an Arabic or Farsi letter. */
  lemma FarsiLettersAreLetters(c: char)
    ensures IsFarsiLetter(c as int) ==> IsArabicOrFarsiLetter(c)
  {
    FarsiLettersLow(c);
    FarsiLettersHigh(c);
  }

  lemma FarsiLettersLow(c: char)
    ensures IsFarsiLetterLow(c as int) ==> IsArabicOrFarsiLetter(c)
  {
  }

  lemma FarsiLettersHigh(c: char)
    ensures IsFarsiLetterHigh(c as int) ==> IsArabicOrFarsiLetter(c)
  {
  }

  /** The tashkil entries exactly: hamza, tatweel and the harakat U+064B..U+0652, all normalising to the zero rune. */
  lemma TashkilRunes(r: char)
    ensures IsTashkil(r) <==> r == '\U{0621}' || r == '\U{0640}' || '\U{064B}' <= r <= '\U{0652}'
    ensures IsTashkil(r) ==> Normalize(r) == '\0'
  {
  }
}
