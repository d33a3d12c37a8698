# ptpp in Dafny

A model of the core of ptpp, a Persian text preprocessor written in Go, in
five parts:

- **Character table** (`charmap.dfy`, module `CharMap`). The static table
  gives each listed rune a class (English letter, English digit, Arabic or
  Farsi letter, Arabic or Farsi digit, tashkil) and a normalised form. Four
  class predicates and `normalize` read it.
- **Distance** (`algo.dfy`, module `Algo`). `Levenshtein` is an in-place
  single-row dynamic program over an `array<int>`.
- **Spell checker** (`spell.dfy`, module `Spell`).
  - The lexicon maps a rune count to the set of stored words of that
    length.
  - `Train` adds words of at least two runes.
  - `Check` gathers the stored words at distance exactly 1 from three
    buckets: the word's own length, one shorter (skipped for two-rune
    words) and one longer. The word itself comes first when it is stored,
    and it is returned alone when nothing else is found.
- **Semantic matcher** (`semantic.dfy`, module `Semantic`). A table from a
  context word to the words seen right after it. `Match` returns the first
  suggestion, in the order given, that has been seen after the context,
  and otherwise the first suggestion, unmatched.
- **Processor** (`tokenizer.dfy` and `processor.dfy`, modules `Tokenizer`
  and `Processing`).
  - `readWords` is a four-state lexer. It cuts the input into words of
    English letters, of Arabic or Farsi letters (with tashkil dropped) and
    of digits, normalising every rune it keeps.
  - `Train` feeds each phrase's words to the spell checker and each pair of
    neighbouring words to the matcher.
  - `Process` corrects every word. It then cuts the corrected words into
    phrases wherever a word was never seen after the word chosen before
    it.

`spell_examples.dfy` and `processor_examples.dfy` derive the outcomes of the
repository's tests from the model's contracts. `words.dfy` defines `Word`
(a `seq<char>` of runes); `wrappers.dfy` defines `Option`.

## How the source is modelled

- **Maps that may be nil.** The Go maps `lexicon` and `contexts` are
  `Option`s of Dafny maps, `None` while the Go map is nil. This keeps the nil
  checks of `Check`, `trainWord`, `Match` and `Train` visible. A `wordList` is
  a `set` of words.
- **Classes.**
  - `DefaultSpellChecker` is the class `Spell.SpellChecker`.
  - `DefaultSemanticMatcher` is the class `Semantic.SemanticMatcher`.
  - `Processor` is the class `Processing.Processor`, holding one of each.
  - Each method is proved against a function that states the new state or
    the result: `AddWords`, `Learn`, `Best`, `Tokens`, `Phrases`, and
    `Distance` for `Levenshtein`.
- **Map iteration order.** Go iterates maps in no fixed order, so the order
  of `Check`'s suggestions is left open. The predicate `Suggests` says what
  every order has in common:
  - the suggestions are distinct;
  - their set is `Candidates`;
  - the word itself comes first when it is stored.

  `Process` returns, as a ghost out-parameter, the suggestion lists it
  worked from. Its phrases are stated as `Phrases` of those lists.
- **The Levenshtein recurrence.** `Levenshtein` does not compute the
  textbook distance. Before the row for rune `i` of `w` (counting from 0), it
  resets the first cell to `i` where the recurrence needs `i + 1`
  (algo.go:15). The first rune of `w` can therefore be dropped for free. The
  code returns:
  - `|v|` when `w` is empty;
  - otherwise the smaller of the textbook distance from `v` to `w` and from
    `v` to `w` without its first rune.

  The model follows the code. `Algo.Distance` is that value and
  `Algo.EditDistance` the textbook one; `Algo.DistanceNotSymmetric` shows
  the difference. The candidates of the spell checker are computed with the
  code's distance, so a word with one extra leading rune is at distance 0,
  not 1. It is therefore not suggested (`Algo.DistanceZeroIff`).

## Model

| member | source | states |
|---|---|---|
| CharMap.ClassesExclusive | charmap.go:11-148 | no rune is in two of the classes the lexer asks about |
| CharMap.UnlistedRunePassesThrough | charmap.go:150-183 | a rune missing from the table fails all four predicates and is normalised to itself |
| CharMap.SpaceIsUnlisted | charmap.go:11-148 | the space rune is not in the table |
| CharMap.NormalizeIdempotent | charmap.go:178-183 | normalising twice is normalising once |
| CharMap.NormalizeFoldsEnglish | charmap.go:15-76 | A-Z are English letters that fold to lower case (+32); a-z and 0-9 are kept |
| CharMap.NormalizeFoldsEasternDigits | charmap.go:118-137 | Arabic-Indic U+0660..U+0669 and Farsi U+06F0..U+06F9 digits are digits and become the ASCII digit of the same value |
| CharMap.NormalizeFoldsLetterVariants | charmap.go:77-117 | the alef, yeh, waw, teh marbuta and kaf variants fold onto the Farsi letter the table names |
| CharMap.NormalizePreservesClass | charmap.go:150-183 | normalising keeps an English letter, an Arabic or Farsi letter or a digit in its class and never yields tashkil |
| CharMap.NormalizeImage | charmap.go:11-148 | English letters normalise into a-z, digits into 0-9, Arabic and Farsi letters into the 32-letter Farsi alphabet |
| CharMap.FarsiLettersAreLetters | charmap.go:77-117 | every letter of the Farsi alphabet is listed as an Arabic or Farsi letter |
| CharMap.FarsiLettersLow | charmap.go:77-117 | the first sixteen Farsi letters are listed as Arabic or Farsi letters |
| CharMap.FarsiLettersHigh | charmap.go:77-117 | the last sixteen Farsi letters are listed as Arabic or Farsi letters |
| CharMap.TashkilRunes | charmap.go:138-147 | tashkil is exactly hamza, tatweel and U+064B..U+0652, all normalising to the zero rune |
| Algo.Levenshtein | algo.go:4-37 | the returned distance is `Distance(v, w)` |
| Algo.NextRow | algo.go:13-33 | one pass of the outer loop turns the row for `i` runes of `w` into the row for `i + 1`, in place |
| Algo.Cell | algo.go:17-31 | the cell value is the minimum of up + 1, left + 1 and diagonal + substitution cost |
| Algo.Row | algo.go:8-11 | each row has one entry per prefix of `v` |
| Algo.EntryFirstColumn | algo.go:15 | after rune `i` the first cell holds `i`, not `i + 1` |
| Algo.EntryStep | algo.go:16-32 | every inner cell follows the textbook recurrence from its three neighbours |
| Algo.EntryStepLaterRow | algo.go:16-32 | the recurrence holds for rows after the first, where both candidate distances are in play |
| Algo.LastEntryIsDistance | algo.go:36 | the last cell of the final row is `Distance(v, w)` |
| Algo.LevUnfold | algo.go:16-32 | one step of the textbook recurrence |
| Algo.LevOffset | algo.go:4-37 | comparing against `w` from an offset is comparing against that suffix of `w` |
| Algo.LevOffsetStep | algo.go:4-37 | the offset property is preserved by one step of the recurrence |
| Algo.CountIn | algo.go:4-37 | a count of runes in a range is at most the range's length |
| Algo.Mismatches | algo.go:23-31 | the number of differing positions of two ranges is at most their length |
| Algo.LevLengthGap | algo.go:4-37 | the textbook distance is at least the difference of the lengths |
| Algo.LevAtMostLonger | algo.go:4-37 | the textbook distance is at most the longer length |
| Algo.LevCountGap | algo.go:4-37 | the textbook distance is at least the gap in the counts of any rune set |
| Algo.LevCountGapStep | algo.go:4-37 | the count-gap bound is preserved by one step of the recurrence |
| Algo.LevZero | algo.go:4-37 | textbook distance zero means equal lengths and no mismatch |
| Algo.LevAtMostMismatches | algo.go:4-37 | for equal lengths the textbook distance is at most the number of mismatches |
| Algo.LevEditSteps | algo.go:16-32 | each of insert, delete and substitute costs at most one step of the recurrence |
| Algo.MismatchesZero | algo.go:23-31 | no mismatch exactly when the ranges agree position by position |
| Algo.SamePrefix | algo.go:23-31 | a shared prefix has no mismatch |
| Algo.SameSuffix | algo.go:23-31 | a shared suffix has no mismatch |
| Algo.LevCommonTail | algo.go:23-31 | a common tail does not increase the textbook distance |
| Algo.LevMatch | algo.go:27-31 | equal last runes cost nothing |
| Algo.LevOneMismatch | algo.go:4-37 | for equal lengths, textbook distance at most one means at most one mismatch |
| Algo.LevDiagonalStep | algo.go:16-32 | for equal lengths, distance at most one is reached along the diagonal |
| Algo.CountInDropFirst | algo.go:4-37 | dropping the first rune loses exactly that rune from a count |
| Algo.DistanceAsLev | algo.go:4-37 | for non-empty `w` the code's distance is the minimum of the textbook distances to `w` and to `w` without its first rune |
| Algo.DistanceZeroIff | algo.go:15 | distance 0 exactly when `v` is `w` or `w` without its first rune |
| Algo.DistanceFreeFirstRune | algo.go:15 | one extra leading rune in `w` costs nothing |
| Algo.DistanceBounds | algo.go:4-37 | the code's distance is at most the textbook one, at least `|v| - |w|` and at least `|w| - |v| - 1` |
| Algo.DistanceAtMostLonger | algo.go:4-37 | the distance is at most the longer length, and at most `max(|v|, |w| - 1)` for non-empty `w` |
| Algo.DistanceCountGap | algo.go:4-37 | the distance is at least the excess of any rune set's count in `v` over its count in `w` |
| Algo.DistanceAtMostMismatches | algo.go:4-37 | for equal lengths the distance is at most the number of mismatches |
| Algo.DistanceAtLeastTwo | algo.go:4-37 | two mismatches, with a count gap of two against `w` without its first rune, give distance at least 2 |
| Algo.DistanceOneEdit | algo.go:4-37 | one insertion, deletion or substitution gives distance at most 1 |
| Algo.EditDistanceInsert | algo.go:4-37 | the textbook distance of one insertion is at most 1 |
| Algo.EditDistanceDelete | algo.go:4-37 | the textbook distance of one deletion is at most 1 |
| Algo.EditDistanceSubstitute | algo.go:4-37 | the textbook distance of one substitution is at most 1 |
| Algo.DistanceNotSymmetric | algo.go:15 | `Distance("", "ab")` is 1 while `Distance("ab", "")` is 2 |
| Algo.OneEditExamples | algo_test.go:18-19 | "bad" to "band" (one insertion) and "bind" to "bid" (one deletion) are both 1 |
| Algo.ReplaceExample | algo_test.go:20 | "bulk" to "bill" is 2 |
| Spell.AddThenHas | spell.go:10-17 | after `Add`, `Has` holds exactly for the added word and the words there before |
| Spell.AllWordsByLength | spell.go:85-100 | in a valid lexicon a word is stored exactly when its own bucket holds it |
| Spell.AddWord | spell.go:85-100 | training one word makes the lexicon non-nil and adds the word to bucket `|word|` when it has two runes or more; every other bucket is unchanged |
| Spell.AddWordValid | spell.go:85-100 | training a word keeps every bucket holding only words of its length, none shorter than 2 |
| Spell.AddWordsValid | spell.go:76-83 | training a list keeps the lexicon valid |
| Spell.AddWordsBuckets | spell.go:76-83 | after training, each bucket is the old bucket plus the trained words of that length; a bucket exists when it existed or a word touched it |
| Spell.AddWordsBucketsStep | spell.go:76-83 | the bucket property is preserved by training one more word |
| Spell.AddWordsIdempotent | spell.go:76-83 | training the same list twice is training it once |
| Spell.ElementsAppend | spell.go:27-73 | appending a suggestion adds it to the set of suggestions |
| Spell.CandidatesByWindow | spell.go:27-73 | a word is a candidate exactly when it is a stored word within the length window at distance 1, or it is the word itself and it is stored or nothing else is near |
| Spell.GatheredIsWindow | spell.go:38-66 | the three scans find the stored word itself plus the stored words within the window at distance 1 |
| Spell.GatheredInWindow | spell.go:38-66 | a gathered word other than the word itself is stored, within the window and at distance 1 |
| Spell.CandidatesOfShortWord | spell.go:31-34 | a nil lexicon or a word shorter than two runes gives the word alone |
| Spell.WordItselfCandidate | spell.go:27-73 | the word itself is suggested exactly when the lexicon is nil, the word is short, it is stored, or nothing else is found |
| Spell.SpellChecker.constructor | spell.go:21-24 | the zero value has a nil lexicon |
| Spell.SpellChecker.TrainWord | spell.go:85-100 | `trainWord` leaves the lexicon as `AddWord` of the old one and keeps it valid |
| Spell.SpellChecker.Train | spell.go:76-83 | `Train` leaves the lexicon as `AddWords` of the old one and keeps it valid |
| Spell.SpellChecker.Check | spell.go:27-73 | the suggestions are never empty and distinct, their set is `Candidates`, and the word comes first when it is stored; with no lexicon or a word shorter than two runes they are the word alone |
| Spell.Gather | spell.go:36-66 | the three scans return distinct words whose set is `Gathered`, the word itself first when stored |
| Spell.ScanOwnBucket | spell.go:38-48 | the own-bucket scan returns the stored word first, then its neighbours, each once |
| Spell.ScanBucket | spell.go:50-66 | scanning a neighbouring bucket extends the list with that bucket's neighbours, each once |
| Spell.AppendNeighbours | spell.go:43-47 | one bucket loop appends exactly the bucket's words at distance 1, keeping the list distinct |
| Spell.ScansDisjoint | spell.go:36-66 | the three scans look at buckets of different lengths, so no word is found twice |
| Spell.BucketLengths | spell.go:85-100 | every word of bucket `k`, and every neighbour found there, has `k` runes |
| SpellExamples.TrainedLexicon | spell_test.go:13 | training "quality", "quantity", "quantify" gives buckets 7 and 8 |
| SpellExamples.TrainedBuckets | spell_test.go:13 | bucket 7 holds "quality", bucket 8 "quantity" and "quantify", buckets 6 and 9 are empty |
| SpellExamples.QuantityQuantify | spell_test.go:19 | "quantity" to "quantify" is 1 |
| SpellExamples.QuantityQuality | spell_test.go:19 | "quantity" to "quality" is at least 2 |
| SpellExamples.QuanlityQuantity | spell_test.go:20 | "quanlity" to "quantity" is 1 |
| SpellExamples.QuanlityQuality | spell_test.go:20 | "quanlity" to "quality" is 1 |
| SpellExamples.QuanlityQuantify | spell_test.go:20 | "quanlity" to "quantify" is at least 2 |
| SpellExamples.UnknownQuality | spell_test.go:21 | "unknown" to "quality" is at least 2 |
| SpellExamples.UnknownQuantity | spell_test.go:21 | "unknown" to "quantity" is at least 2 |
| SpellExamples.UnknownQuantify | spell_test.go:21 | "unknown" to "quantify" is at least 2 |
| SpellExamples.NeighboursOfPair | spell.go:43-47 | the neighbours in a two-word bucket are those of the two at distance 1 |
| SpellExamples.NeighboursOfOne | spell.go:43-47 | the neighbours in a one-word bucket are that word if it is at distance 1 |
| SpellExamples.CandidatesAreGathered | spell.go:68-70 | when something is gathered, the candidates are exactly what was gathered |
| SpellExamples.QuantityOwnScan | spell_test.go:19 | the own-bucket scan for "quantity" finds "quantity" and "quantify" |
| SpellExamples.QuantityShorterScan | spell_test.go:19 | the shorter-bucket scan for "quantity" finds nothing |
| SpellExamples.QuantityGathered | spell_test.go:19 | the scans for "quantity" gather "quantity" and "quantify" |
| SpellExamples.CheckQuantity | spell_test.go:19 | "quantity" is stored, and its candidates are "quantity" and "quantify" |
| SpellExamples.QuanlityOwnScan | spell_test.go:20 | the own-bucket scan for "quanlity" finds "quantity" |
| SpellExamples.QuanlityShorterScan | spell_test.go:20 | the shorter-bucket scan for "quanlity" finds "quality" |
| SpellExamples.QuanlityGathered | spell_test.go:20 | the scans for "quanlity" gather "quality" and "quantity" |
| SpellExamples.CheckQuanlity | spell_test.go:20 | "quanlity" is not stored, and its candidates are "quality" and "quantity" |
| SpellExamples.UnknownOwnScan | spell_test.go:21 | the own-bucket scan for "unknown" finds nothing |
| SpellExamples.UnknownLongerScan | spell_test.go:21 | the longer-bucket scan for "unknown" finds nothing |
| SpellExamples.UnknownGathered | spell_test.go:21 | the scans for "unknown" gather nothing |
| SpellExamples.CheckUnknown | spell_test.go:21 | the candidates of "unknown" are "unknown" alone |
| Semantic.Learn | semantic.go:27-37 | after training a pair the table exists, has the context, and the context's followers gain the word; nothing else changes |
| Semantic.LearnIdempotent | semantic.go:27-37 | training the same pair twice is training it once |
| Semantic.FirstIn | semantic.go:15-21 | no index exactly when no suggestion is in the list; otherwise the index of a suggestion in the list with none before it |
| Semantic.BestIsFirstFollower | semantic.go:10-24 | a match is reported exactly when some suggestion followed the context; the result is the first such suggestion on a match and the first suggestion otherwise |
| Semantic.SemanticMatcher.constructor | semantic.go:6-8 | the zero value has a nil table |
| Semantic.SemanticMatcher.Match | semantic.go:10-24 | `Match` returns `Best` of the table, the context and the suggestions |
| Semantic.SemanticMatcher.Train | semantic.go:27-37 | `Train` leaves the table as `Learn` of the old one |
| Semantic.MatchExamples | semantic_test.go:13-22 | after learning "quality" after "best", "best" matches "quality" and "worst" falls back to "quantity" unmatched |
| Tokenizer.Run | processor.go:158-186 | a word runs over runes that continue it and stops at the first that does not |
| Tokenizer.ReadWords | processor.go:122-195 | `readWords` returns `Tokens(input)` |
| Tokenizer.ReadRune | processor.go:135-187 | one loop turn keeps the reading invariant and either consumes the rune or ends a word and unreads it |
| Tokenizer.ReadInStart | processor.go:144-157 | in the Start state a letter or digit opens a word and any other rune is dropped |
| Tokenizer.ReadInWord | processor.go:158-186 | inside a word a continuing rune is kept (tashkil dropped) and any other rune ends the word and is read again |
| Tokenizer.ReadingDone | processor.go:190-192 | at the end of the input the word in the builder, if any, is the last word |
| Tokenizer.ReadingAdvances | processor.go:159-171 | a rune that continues the word extends the builder by its normal form, or by nothing for tashkil |
| Tokenizer.ReadingEndsWord | processor.go:161-185 | a rune that does not continue the word emits the builder's word and returns to Start |
| Tokenizer.StartStep | processor.go:144-157 | from Start, a rune that opens no word is skipped and any other begins a word keeping its normal form |
| Tokenizer.KeptStep | processor.go:159-180 | the builder grows by the normal form of each rune read, tashkil excepted |
| Tokenizer.WordEnds | processor.go:161-185 | a word ends at the first rune that does not continue it or at the end of the input |
| Tokenizer.RunExact | processor.go:158-186 | a run is exactly as long as the prefix of continuing runes |
| Tokenizer.KeptNonEmpty | processor.go:144-157 | a word opened by a letter or digit keeps at least that rune |
| Tokenizer.KeptAppend | processor.go:159-180 | the builder's contents distribute over concatenation |
| Tokenizer.WordBoundary | processor.go:161-185 | a word followed by a rune that does not continue it reads as that word followed by the words of the rest |
| Tokenizer.DroppedInStart | processor.go:155-156 | a rune that opens no word is dropped |
| Tokenizer.TokensAroundBreak | processor.go:155-185 | a rune missing from the table splits the input: the words of `a + [c] + b` are those of `a` followed by those of `b` |
| Tokenizer.BreakDropped | processor.go:155-156 | an unlisted rune at the start of the input is dropped |
| Tokenizer.SkipThenBreak | processor.go:155-156 | a dropped rune before an unlisted rune is dropped on both sides |
| Tokenizer.WordThenBreak | processor.go:161-185 | a word before an unlisted rune ends at or before it |
| Tokenizer.WordLength | processor.go:144-157 | a word opened by a letter or digit has at least one rune |
| Tokenizer.TokensSkip | processor.go:155-156 | a rune that opens no word is skipped |
| Tokenizer.RunBefore | processor.go:158-186 | a run stops at a rune that does not continue it, whatever follows |
| Tokenizer.DroppedInFarsiWord | processor.go:170-171 | wherever an Arabic or Farsi letter stands in the input, a tashkil right after it is dropped: the words read are those of the input without it |
| Tokenizer.DroppedAfterLetter | processor.go:167-171 | at the front of the input, a tashkil right after an Arabic or Farsi letter is dropped |
| Tokenizer.RunStops | processor.go:158-186 | a run that stops inside a prefix stops at the same place whatever follows |
| Tokenizer.RunThrough | processor.go:158-186 | a run over a whole prefix goes on into what follows it |
| Tokenizer.WordGoesOn | processor.go:158-186 | a word that reaches the end of a prefix goes on over the run of its kind that follows |
| Tokenizer.FarsiRuns | processor.go:167-171 | a Farsi word runs over a tashkil that follows a letter |
| Tokenizer.FarsiLetterOpens | processor.go:149-151 | an Arabic or Farsi letter opens and continues a Farsi word |
| Tokenizer.TokensUnfold | processor.go:144-186 | a word opened by the first rune is the first word, and reading goes on after it |
| Tokenizer.RunCons | processor.go:158-186 | a continuing rune in front lengthens the run by one |
| Tokenizer.KeptDropsTashkil | processor.go:170-171 | a tashkil adds nothing to the builder |
| Tokenizer.TokensAreTokens | processor.go:122-195 | every word read is non-empty, of a single kind and already normalised |
| Tokenizer.KeptOfRun | processor.go:144-186 | what a run keeps is such a word |
| Tokenizer.KeptOfKind | processor.go:159-180 | every kept rune is of the word's kind and normalised |
| Tokenizer.KeptRune | processor.go:159-180 | a kept rune's normal form is of the word's kind and normalises to itself |
| Tokenizer.TokensNoLonger | processor.go:122-195 | the words read hold no more runes than the input |
| Tokenizer.TotalLengthCons | processor.go:122-195 | the total length of a word list adds up over its first word |
| Tokenizer.KeptNoLonger | processor.go:159-180 | the builder holds no more runes than were read |
| Tokenizer.RetokenizeToken | processor.go:122-195 | reading a word the lexer emitted gives that word back alone |
| Tokenizer.LowerCaseIsToken | processor.go:146-147 | a non-empty word of lower-case English letters is a word the lexer can emit |
| Tokenizer.TokenRuns | processor.go:144-186 | the runes of such a word form a run of its kind |
| Tokenizer.KeptToken | processor.go:159-180 | the builder keeps such a word unchanged |
| Tokenizer.KeptTokenRune | processor.go:159-180 | a normalised rune of the word's kind is kept as it is |
| Tokenizer.TokensAreFixed | processor.go:122-195 | every word read reads back as itself |
| Processing.LearnPairsFollowers | processor.go:80-82 | after training the pairs of a phrase, `y` follows `x` exactly when it did before or `y` comes right after `x` in the phrase |
| Processing.LearnPhrasesFollowers | processor.go:77-83 | after training phrases, `y` follows `x` exactly when it did before or `y` comes right after `x` in some phrase |
| Processing.TrainLexiconBuckets | processor.go:77-79 | training phrases keeps the lexicon valid, and each bucket gains exactly the phrases' words of that length |
| Processing.TrainedInSnoc | processor.go:77-79 | the words trained from phrases add up phrase by phrase |
| Processing.Picks | processor.go:98-113 | one pick per token |
| Processing.PicksAreBest | processor.go:105-112 | each later pick is what the matcher returns for the word picked before it, opening a phrase exactly when unmatched |
| Processing.PicksFollow | processor.go:98-113 | every pick is one of its token's suggestions; a later pick opens exactly when none of its suggestions followed the previous word; otherwise it is the first that did; an opening pick is the first suggestion |
| Processing.PicksFirst | processor.go:100-102 | the first pick is the first suggestion and opens a phrase |
| Processing.PicksSnoc | processor.go:105-112 | picks extend token by token |
| Processing.PicksChained | processor.go:105-112 | every pick that does not open a phrase followed the previous pick in the table |
| Processing.ChainedPrefix | processor.go:105-112 | the chaining property holds for every prefix |
| Processing.FollowedSnoc | processor.go:111 | a phrase stays chained when a word that followed its last word joins it |
| Processing.JoinRetokenizes | processor.go:108 | reading a joined phrase of emitted words gives the words back |
| Processing.JoinSnocTokens | processor.go:108 | joining one more word keeps the phrase readable back into its words |
| Processing.Render | processor.go:108-116 | one string per phrase |
| Processing.WordsOf | processor.go:98-113 | one word per pick, the pick's word |
| Processing.GroupWords | processor.go:100-112 | the phrases, read in order, are exactly the picked words |
| Processing.GroupShape | processor.go:100-117 | no phrase is empty, there is one phrase per opening pick, and the last word of the last phrase is the last pick |
| Processing.FlattenSnoc | processor.go:108-116 | flattening the phrases adds up phrase by phrase |
| Processing.GroupSnoc | processor.go:107-112 | an opening pick starts a new phrase and any other pick joins the current one |
| Processing.GroupChained | processor.go:105-112 | in every phrase each word followed the word before it |
| Processing.PhrasesCount | processor.go:95-117 | there is one phrase per opening pick; there are no phrases exactly when there are no words |
| Processing.PhrasesWords | processor.go:98-117 | no phrase is empty, and the phrases hold one word per token, each taken from that token's suggestions |
| Processing.PhrasesFollowed | processor.go:105-112 | within every phrase each word was seen after the word before it |
| Processing.Processor.constructor | processor.go:61-71 | both collaborators are fresh default values with nil maps |
| Processing.Processor.Train | processor.go:74-84 | `Train` leaves the lexicon as `TrainLexicon` and the table as `LearnPhrases` of the old ones |
| Processing.Processor.TrainPairs | processor.go:80-82 | the pair loop leaves the table as `LearnPairs` of the old one |
| Processing.Processor.Process | processor.go:87-120 | one suggestion list per word read, each as `Check` promises; the phrases are `Phrases` of those lists; there are no phrases exactly when the input holds no word |
| Processing.AllSuggestSnoc | processor.go:98-99 | the suggestion lists extend word by word |
| Processing.CutFirst | processor.go:100-102 | the first word starts the current phrase |
| Processing.CutJoin | processor.go:110-111 | a matched pick joins the current phrase |
| Processing.CutOpen | processor.go:107-109 | an unmatched pick closes the current phrase and starts the next |
| Processing.CutEnd | processor.go:115-117 | closing the last phrase gives `Phrases` of all the lists |
| Processing.RenderSnoc | processor.go:108 | rendering adds up phrase by phrase |
| ProcessorExamples.ReadJoined | processor_test.go:17-20 | words of lower-case letters joined with spaces read back as those words |
| ProcessorExamples.BassGuitarTokens | processor_test.go:18 | "bass guitar" reads as "bass", "guitar" |
| ProcessorExamples.SpanishRosettaStoneTokens | processor_test.go:19 | "spanish rosetta stone" reads as its three words |
| ProcessorExamples.FirstPhraseLexicon | processor_test.go:18 | training "bass guitar" fills buckets 4 and 6 |
| ProcessorExamples.SecondPhraseLexicon | processor_test.go:19 | then "spanish rosetta stone" fills buckets 5 and 7 |
| ProcessorExamples.TrainedLexicon | processor_test.go:17-20 | the lexicon after training |
| ProcessorExamples.FirstPhraseTable | processor_test.go:18 | "bass" is followed by "guitar" |
| ProcessorExamples.SecondPhraseTable | processor_test.go:19 | "spanish" by "rosetta" and "rosetta" by "stone" |
| ProcessorExamples.TrainedTable | processor_test.go:17-20 | the table after training |
| ProcessorExamples.BaseBass | processor_test.go:26 | "base" to "bass" is 1 |
| ProcessorExamples.GuitarrGuitar | processor_test.go:26 | "guitarr" to "guitar" is 1 |
| ProcessorExamples.SpannishSpanish | processor_test.go:28 | "spannish" to "spanish" is 1 |
| ProcessorExamples.FarApart | algo.go:4-37 | a count gap of two runes gives distance at least 2 |
| ProcessorExamples.ElectricSpanish | processor_test.go:26 | "electric" to "spanish" is at least 2 |
| ProcessorExamples.ElectricRosetta | processor_test.go:26 | "electric" to "rosetta" is at least 2 |
| ProcessorExamples.BaseStone | processor_test.go:26 | "base" to "stone" is at least 2 |
| ProcessorExamples.GuitarrSpanish | processor_test.go:26 | "guitarr" to "spanish" is at least 2 |
| ProcessorExamples.GuitarrRosetta | processor_test.go:26 | "guitarr" to "rosetta" is at least 2 |
| ProcessorExamples.EnglishSpanish | processor_test.go:27 | "english" to "spanish" is at least 2 |
| ProcessorExamples.EnglishRosetta | processor_test.go:27 | "english" to "rosetta" is at least 2 |
| ProcessorExamples.EnglishGuitar | processor_test.go:27 | "english" to "guitar" is at least 2 |
| ProcessorExamples.RosettaSpanish | processor_test.go:27 | "rosetta" to "spanish" is at least 2 |
| ProcessorExamples.RosettaGuitar | processor_test.go:27 | "rosetta" to "guitar" is at least 2 |
| ProcessorExamples.StoneBass | processor_test.go:27 | "stone" to "bass" is at least 2 |
| ProcessorExamples.StoneGuitar | processor_test.go:27 | "stone" to "guitar" is at least 2 |
| ProcessorExamples.SpannishRosetta | processor_test.go:28 | "spannish" to "rosetta" is at least 2 |
| ProcessorExamples.LexBuckets | processor_test.go:17-20 | the trained buckets 3 to 9 |
| ProcessorExamples.ElectricGathered | processor_test.go:26 | nothing is near "electric" |
| ProcessorExamples.BaseGathered | processor_test.go:26 | only "bass" is near "base" |
| ProcessorExamples.GuitarrGathered | processor_test.go:26 | only "guitar" is near "guitarr" |
| ProcessorExamples.EnglishGathered | processor_test.go:27 | nothing is near "english" |
| ProcessorExamples.RosettaGathered | processor_test.go:27 | "rosetta" finds only itself |
| ProcessorExamples.StoneGathered | processor_test.go:27 | "stone" finds only itself |
| ProcessorExamples.SpannishGathered | processor_test.go:28 | only "spanish" is near "spannish" |
| ProcessorExamples.DistinctCount | spell.go:27-73 | a list without repeats has as many elements as entries |
| ProcessorExamples.SingleSuggestion | spell.go:27-73 | a word with a single candidate gets exactly that suggestion |
| ProcessorExamples.ThreeSingles | processor.go:98-99 | three words with single candidates get those suggestions |
| ProcessorExamples.ElectricCandidates | processor_test.go:26 | "electric" is suggested as itself |
| ProcessorExamples.BaseCandidates | processor_test.go:26 | "base" is corrected to "bass" |
| ProcessorExamples.GuitarrCandidates | processor_test.go:26 | "guitarr" is corrected to "guitar" |
| ProcessorExamples.EnglishCandidates | processor_test.go:27 | "english" is suggested as itself |
| ProcessorExamples.RosettaCandidates | processor_test.go:27 | "rosetta" is suggested as itself |
| ProcessorExamples.StoneCandidates | processor_test.go:27 | "stone" is suggested as itself |
| ProcessorExamples.SpannishCandidates | processor_test.go:28 | "spannish" is corrected to "spanish" |
| ProcessorExamples.TestMatches | processor_test.go:26-28 | what the trained matcher answers for each neighbouring pair of the three inputs |
| ProcessorExamples.ThreePhrases | processor.go:98-113 | the picks for three single-suggestion tokens |
| ProcessorExamples.GroupOpenJoin | processor.go:107-111 | open, open, join gives two phrases |
| ProcessorExamples.GroupJoinJoin | processor.go:107-111 | open, join, join gives one phrase |
| ProcessorExamples.ElectricTokens | processor_test.go:26 | "electric base guitarr" reads as three words |
| ProcessorExamples.EnglishTokens | processor_test.go:27 | "english rosetta stone" reads as three words |
| ProcessorExamples.SpannishTokens | processor_test.go:28 | "spannish rosetta stone" reads as three words |
| ProcessorExamples.ElectricBaseGuitarr | processor_test.go:26 | whatever order `Check` uses, "electric base guitarr" becomes "electric" and "bass guitar" |
| ProcessorExamples.ElectricBaseGuitarrLists | processor_test.go:26 | its suggestion lists are "electric", "bass", "guitar" |
| ProcessorExamples.ElectricBaseGuitarrPhrases | processor_test.go:26 | those lists give "electric" and "bass guitar" |
| ProcessorExamples.EnglishRosettaStone | processor_test.go:27 | "english rosetta stone" becomes "english" and "rosetta stone" |
| ProcessorExamples.EnglishRosettaStoneLists | processor_test.go:27 | its suggestion lists are its own three words |
| ProcessorExamples.EnglishRosettaStonePhrases | processor_test.go:27 | those lists give "english" and "rosetta stone" |
| ProcessorExamples.SpannishRosettaStone | processor_test.go:28 | "spannish rosetta stone" becomes "spanish rosetta stone" |
| ProcessorExamples.SpannishRosettaStoneLists | processor_test.go:28 | its suggestion lists are "spanish", "rosetta", "stone" |
| ProcessorExamples.SpannishRosettaStonePhrases | processor_test.go:28 | those lists give "spanish rosetta stone" |
| ProcessorExamples.TestProcessor | processor_test.go:14-35 | a processor trained on the two phrases returns the three expected phrase lists |

## Left out

- Load and Save (processor.go:197-293) and the `LoadSaver` interface (processor.go:14-22): zip archives, gob files and temporary files are file I/O.
- Mutexes (spell.go:23, processor.go:58): locking has no effect on the single-threaded behaviour modelled here.
- Reading: the input is a `seq<char>` of already-decoded runes. `bufio`, UTF-8 decoding and read errors are not modelled, and neither is `Process`'s error return (processor.go:91-94).
- The `SpellChecker` and `SemanticMatcher` interfaces (processor.go:24-45) and the exported fields that hold them (processor.go:49-56): a processor always holds the default implementations. Custom implementations are not modelled.
- ensureFields (processor.go:61-71): modelled by `Processing.Processor.constructor`, which sets both fields. A nil field cannot arise, so the lazy check is not repeated on every call.
- Spell.SpellChecker.Check: Go's map iteration order decides the order of the suggestions. The model leaves that order open, so `Check`'s contract fixes the set of suggestions, that they are distinct and, when the word is stored, the first one.
- ProcessorExamples.TestProcessor: the test compares phrase lists without regard to order; the model's phrases come in input order.
- wordList aliasing: a `wordList` is a value (`set`). The in-place update through a map entry in `trainWord` and `Train` is modelled as replacing the entry.
