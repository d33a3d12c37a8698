/**
 * The default spell checker (spell.go): a lexicon of word sets bucketed by
 * rune count, trained word by word, and queried for the words at distance
 * exactly 1 (as `Levenshtein` measures it) in the word's own bucket and in
 * the two neighbouring ones.
 *
 * A Go `wordList` is a set of words. The lexicon is `None` while the Go map
 * is nil, so that the nil checks of `Check` and `trainWord` stay visible.
 */
module Spell {
  import opened Wrappers
  import opened Words
  import opened Algo

  /** A `wordList`: the set of words stored with value `true`. */
  type WordList = set<Word>

  /** `wordList.Add`. */
  function Add(list: WordList, word: Word): WordList
  {
    list + {word}
  }

  /** `wordList.Has`. */
  predicate Has(list: WordList, word: Word)
  {
    word in list
  }

  /** After `Add`, a word is present exactly when it was added now or before. */
  lemma AddThenHas(list: WordList, word: Word, u: Word)
    ensures Has(Add(list, word), u) <==> u == word || Has(list, u)
  {
  }

  /** The `lexicon` field: `None` while the Go map is nil, otherwise rune count to bucket. */
  type Lexicon = Option<map<int, WordList>>

  /** Words of fewer runes than this are never stored nor corrected. */
  const MinLength := 2

  /** What training maintains: buckets of length at least 2 holding only words of that length. */
  predicate ValidLexicon(lex: Lexicon)
  {
    lex.Some? ==>
      forall n :: n in lex.value ==> n >= MinLength && forall w :: w in lex.value[n] ==> |w| == n
  }

  /** Bucket `n`, empty when the lexicon is nil or has no such bucket. */
  function Bucket(lex: Lexicon, n: int): WordList
  {
    if lex.Some? && n in lex.value then lex.value[n] else {}
  }

  /** Every word of the lexicon, whatever its bucket. */
  function AllWords(lex: Lexicon): set<Word>
  {
    if lex.None? then {} else set n, w | n in lex.value && w in lex.value[n] :: w
  }

  /** In a valid lexicon a word is stored exactly when its own bucket holds it. */
  lemma AllWordsByLength(lex: Lexicon, u: Word)
    requires ValidLexicon(lex)
    ensures u in AllWords(lex) <==> u in Bucket(lex, |u|)
  {
    if u in AllWords(lex) {
      var n :| n in lex.value && u in lex.value[n];
    }
  }

  // ---------------------------------------------------------------------
  // Training
  // ---------------------------------------------------------------------

  /**
   * The lexicon after `trainWord(word)` (spell.go:85-100): the map is made
   * if it was nil, even for a word too short to store; a word of two or
   * more runes joins the bucket of its rune count, which is made if absent.
   */
  function AddWord(lex: Lexicon, word: Word): (r: Lexicon)
    ensures r.Some?
    ensures forall n :: Bucket(r, n) == if n == |word| >= MinLength then Bucket(lex, n) + {word} else Bucket(lex, n)
    ensures forall n :: n in r.value <==> (lex.Some? && n in lex.value) || n == |word| >= MinLength
  {
    var m := if lex.None? then map[] else lex.value;
    if |word| < MinLength then
      Some(m)
    else
      Some(m[|word| := Add(if |word| in m then m[|word|] else {}, word)])
  }

  /** The lexicon after `Train(words)` (spell.go:76-83): one `trainWord` per word, in order. */
  function AddWords(lex: Lexicon, words: seq<Word>): Lexicon
  {
    if |words| == 0 then lex else AddWord(AddWords(lex, words[..|words| - 1]), words[|words| - 1])
  }

  /** Training keeps the lexicon valid. */
  lemma AddWordValid(lex: Lexicon, word: Word)
    requires ValidLexicon(lex)
    ensures ValidLexicon(AddWord(lex, word))
  {
    var r := AddWord(lex, word);
    forall n | n in r.value
      ensures n >= MinLength && forall w :: w in r.value[n] ==> |w| == n
    {
      assert r.value[n] == Bucket(r, n);
    }
  }

  lemma {:induction false} AddWordsValid(lex: Lexicon, words: seq<Word>)
    requires ValidLexicon(lex)
    ensures ValidLexicon(AddWords(lex, words))
  {
    if |words| > 0 {
      AddWordsValid(lex, words[..|words| - 1]);
      AddWordValid(AddWords(lex, words[..|words| - 1]), words[|words| - 1]);
    }
  }

  /** The words of `words` that training puts into bucket `n`. */
  function Trained(words: seq<Word>, n: int): set<Word>
  {
    set w | w in words && |w| == n >= MinLength
  }

  /** Whether training on `words` creates or touches bucket `n`. */
  predicate Touches(words: seq<Word>, n: int)
  {
    exists i :: 0 <= i < |words| && |words[i]| == n >= MinLength
  }

  /**
   * Training only adds: bucket `n` afterwards is bucket `n` before plus the
   * trained words of `n` runes, and it exists afterwards exactly when it
   * existed before or some trained word created it. The map stays nil only
   * when there were no words at all.
   */
  ghost predicate TrainedBuckets(lex: Lexicon, words: seq<Word>, r: Lexicon)
  {
    && (r.Some? <==> lex.Some? || |words| > 0)
    && (forall n :: Bucket(r, n) == Bucket(lex, n) + Trained(words, n))
    && (r.Some? ==> forall n :: n in r.value <==> (lex.Some? && n in lex.value) || Touches(words, n))
  }

  lemma {:induction false} AddWordsBuckets(lex: Lexicon, words: seq<Word>)
    ensures TrainedBuckets(lex, words, AddWords(lex, words))
  {
    if |words| > 0 {
      var init := words[..|words| - 1];
      AddWordsBuckets(lex, init);
      AddWordsBucketsStep(lex, words, AddWords(lex, init));
    }
  }

  lemma AddWordsBucketsStep(lex: Lexicon, words: seq<Word>, prev: Lexicon)
    requires |words| > 0
    requires TrainedBuckets(lex, words[..|words| - 1], prev)
    ensures TrainedBuckets(lex, words, AddWord(prev, words[|words| - 1]))
  {
    var init, last := words[..|words| - 1], words[|words| - 1];
    assert words == init + [last];
    var r := AddWord(prev, last);
    forall n
      ensures Bucket(r, n) == Bucket(lex, n) + Trained(words, n)
    {
      assert Trained(words, n) == Trained(init, n) + (if n == |last| >= MinLength then {last} else {});
    }
    forall n
      ensures n in r.value <==> (lex.Some? && n in lex.value) || Touches(words, n)
    {
      if Touches(words, n) && !Touches(init, n) {
        assert n == |last|;
      }
      if Touches(init, n) {
        var i :| 0 <= i < |init| && |init[i]| == n >= MinLength;
        assert words[i] == init[i];
      }
    }
  }

  /** Retraining on the same words changes nothing. */
  lemma AddWordsIdempotent(lex: Lexicon, words: seq<Word>)
    ensures AddWords(AddWords(lex, words), words) == AddWords(lex, words)
  {
    var once := AddWords(lex, words);
    var twice := AddWords(once, words);
    AddWordsBuckets(lex, words);
    AddWordsBuckets(once, words);
    if once.Some? {
      forall n | n in twice.value
        ensures n in once.value && twice.value[n] == once.value[n]
      {
        assert Bucket(twice, n) == Bucket(once, n);
      }
      forall n | n in once.value
        ensures n in twice.value
      {
      }
      assert twice.value == once.value;
    }
  }

  // ---------------------------------------------------------------------
  // Suggestions
  // ---------------------------------------------------------------------

  /** The bucket lengths `Check` consults for a word of `n` runes. */
  predicate InWindow(n: int, k: int)
  {
    k == n || k == n + 1 || (n > MinLength && k == n - 1)
  }

  /** The words of `list` at distance exactly 1 from `word`. */
  function Neighbours(word: Word, list: WordList): set<Word>
  {
    set w | w in list && Distance(word, w) == 1
  }

  /** What the scan of the word's own bucket finds: the word itself if stored, and its neighbours there. */
  function OwnScan(lex: Lexicon, word: Word): set<Word>
  {
    (if word in Bucket(lex, |word|) then {word} else {}) + Neighbours(word, Bucket(lex, |word|))
  }

  /** What the scan of the bucket one shorter finds; words of two runes skip it. */
  function ShorterScan(lex: Lexicon, word: Word): set<Word>
  {
    if |word| > MinLength then Neighbours(word, Bucket(lex, |word| - 1)) else {}
  }

  /** What the scan of the bucket one longer finds. */
  function LongerScan(lex: Lexicon, word: Word): set<Word>
  {
    Neighbours(word, Bucket(lex, |word| + 1))
  }

  /** The words `Check` gathers from the three buckets, before the fallback. */
  function Gathered(lex: Lexicon, word: Word): set<Word>
  {
    OwnScan(lex, word) + ShorterScan(lex, word) + LongerScan(lex, word)
  }

  /** The set of suggestions `Check` returns (spell.go:27-73). */
  function Candidates(lex: Lexicon, word: Word): set<Word>
  {
    if lex.None? || |word| < MinLength || Gathered(lex, word) == {} then {word} else Gathered(lex, word)
  }

  /** The words a list holds, forgetting order and repetition. */
  function Elements(s: seq<Word>): set<Word>
  {
    set u | u in s
  }

  lemma ElementsAppend(s: seq<Word>, w: Word)
    ensures Elements(s + [w]) == Elements(s) + {w}
  {
    assert forall u :: u in s + [w] <==> u in s || u == w;
  }

  predicate Distinct(s: seq<Word>)
  {
    forall i, j :: 0 <= i < j < |s| ==> s[i] != s[j]
  }

  /**
   * What `Check` promises: a non-empty list without repetitions holding
   * exactly the candidates, with the word itself first whenever the lexicon
   * stores it. The order of the other entries follows Go's map iteration and
   * is left open.
   */
  ghost predicate Suggests(lex: Lexicon, word: Word, r: seq<Word>)
  {
    && |r| > 0
    && Distinct(r)
    && Elements(r) == Candidates(lex, word)
    && (Exact(lex, word) ==> r[0] == word)
  }

  /** Whether `Check` finds the word itself: the lexicon exists and stores it, and the word is long enough. */
  predicate Exact(lex: Lexicon, word: Word)
  {
    lex.Some? && |word| >= MinLength && word in Bucket(lex, |word|)
  }

  /** The stored words whose length is in the window of `word` and whose distance from it is 1. */
  function Nearby(lex: Lexicon, word: Word): set<Word>
  {
    set w | w in AllWords(lex) && InWindow(|word|, |w|) && Distance(word, w) == 1
  }

  /**
   * The same candidates described over the whole lexicon instead of three
   * buckets: the stored words within the length window at distance 1, plus
   * the word itself when it is stored or nothing else is found.
   */
  lemma CandidatesByWindow(lex: Lexicon, word: Word, u: Word)
    requires ValidLexicon(lex) && lex.Some? && |word| >= MinLength
    ensures u in Candidates(lex, word) <==>
      (u == word && (word in AllWords(lex) || Nearby(lex, word) == {})) || u in Nearby(lex, word)
  {
    AllWordsByLength(lex, word);
    GatheredIsWindow(lex, word);
  }

  lemma GatheredIsWindow(lex: Lexicon, word: Word)
    requires ValidLexicon(lex) && lex.Some? && |word| >= MinLength
    ensures Gathered(lex, word) == (if word in Bucket(lex, |word|) then {word} else {}) + Nearby(lex, word)
  {
    forall u | u in Gathered(lex, word)
      ensures u in (if word in Bucket(lex, |word|) then {word} else {}) + Nearby(lex, word)
    {
      GatheredInWindow(lex, word, u);
    }
    forall u | u in Nearby(lex, word)
      ensures u in Gathered(lex, word)
    {
      AllWordsByLength(lex, u);
    }
  }

  /** A gathered word other than the stored word itself is a stored word within the window at distance 1. */
  lemma GatheredInWindow(lex: Lexicon, word: Word, u: Word)
    requires ValidLexicon(lex) && lex.Some? && |word| >= MinLength && u in Gathered(lex, word)
    ensures u == word || u in Nearby(lex, word)
  {
    var n := |word|;
    if u != word {
      var k := if u in Bucket(lex, n) then n else if u in Bucket(lex, n + 1) then n + 1 else n - 1;
      assert u in lex.value[k];
      assert u in AllWords(lex);
    }
  }

  /** A nil lexicon or a word of fewer than two runes gives back just the word (spell.go:31-34). */
  lemma CandidatesOfShortWord(lex: Lexicon, word: Word)
    requires lex.None? || |word| < MinLength
    ensures Candidates(lex, word) == {word}
  {
  }

  /** The word itself is a candidate exactly when it is stored or nothing else is near. */
  lemma WordItselfCandidate(lex: Lexicon, word: Word)
    requires ValidLexicon(lex)
    ensures word in Candidates(lex, word) <==>
      lex.None? || |word| < MinLength || word in AllWords(lex) || Gathered(lex, word) == {}
  {
    AllWordsByLength(lex, word);
    DistanceZeroIff(word, word);
  }

  // ---------------------------------------------------------------------
  // The checker object
  // ---------------------------------------------------------------------

  /** `DefaultSpellChecker`; its read-write mutex only orders concurrent calls and is left out. */
  class SpellChecker {
    var lexicon: Lexicon

    predicate Valid()
      reads this
    {
      ValidLexicon(lexicon)
    }

    /** The zero value: a nil lexicon. */
    constructor ()
      ensures lexicon == None && Valid()
    {
      lexicon := None;
    }

    /** `trainWord` (spell.go:85-100). */
    method TrainWord(word: Word)
      requires Valid()
      modifies this
      ensures Valid()
      ensures lexicon == AddWord(old(lexicon), word)
    {
      AddWordValid(lexicon, word);
      if lexicon.None? {
        lexicon := Some(map[]);
      }
      var len := |word|;
      if len < MinLength {
        return;
      }
      var m := lexicon.value;
      ghost var before := m;
      if len !in m {
        m := m[len := {}];
      }
      assert m[len := Add(m[len], word)] == before[len := Add(if len in before then before[len] else {}, word)];
      lexicon := Some(m[len := Add(m[len], word)]);
    }

    /** `Train` (spell.go:76-83). */
    method Train(words: seq<Word>)
      requires Valid()
      modifies this
      ensures Valid()
      ensures lexicon == AddWords(old(lexicon), words)
    {
      for i := 0 to |words|
        invariant Valid()
        invariant lexicon == AddWords(old(lexicon), words[..i])
      {
        assert words[..i + 1][..i] == words[..i];
        TrainWord(words[i]);
      }
      assert words[..|words|] == words;
    }

    /** `Check` (spell.go:27-73). */
    method Check(word: Word) returns (suggestions: seq<Word>)
      requires Valid()
      ensures Suggests(lexicon, word, suggestions)
      ensures lexicon.None? || |word| < MinLength ==> suggestions == [word]
    {
      var length := |word|;
      if lexicon.None? || length < MinLength {
        ElementsAppend([], word);
        return [word];
      }
      suggestions := Gather(word, lexicon);
      if |suggestions| == 0 {
        ElementsAppend(suggestions, word);
        suggestions := suggestions + [word];
      } else {
        assert suggestions[0] in Elements(suggestions);
      }
    }
  }

  /**
   * The three bucket scans of `Check` (spell.go:36-66): the word itself if
   * its own bucket has it, then the neighbours in its own bucket, in the
   * bucket one shorter (only for words of more than two runes) and in the
   * bucket one longer.
   */
  method Gather(word: Word, lex: Lexicon) returns (r: seq<Word>)
    requires ValidLexicon(lex) && lex.Some? && |word| >= MinLength
    ensures Distinct(r) && Elements(r) == Gathered(lex, word)
    ensures Exact(lex, word) ==> |r| > 0 && r[0] == word
  {
    var length := |word|;
    ScansDisjoint(lex, word);
    r := ScanOwnBucket(word, lex);
    if length > MinLength {
      r := ScanBucket(word, lex, length - 1, r);
    } else {
      UnionEmpty(Elements(r));
    }
    r := ScanBucket(word, lex, length + 1, r);
  }

  /** The three scans visit buckets of different lengths, so they never find a word twice. */
  lemma ScansDisjoint(lex: Lexicon, word: Word)
    requires ValidLexicon(lex)
    ensures OwnScan(lex, word) !! Neighbours(word, Bucket(lex, |word| - 1))
    ensures OwnScan(lex, word) + ShorterScan(lex, word) !! Neighbours(word, Bucket(lex, |word| + 1))
  {
    BucketLengths(lex, word, |word|);
    BucketLengths(lex, word, |word| - 1);
    BucketLengths(lex, word, |word| + 1);
  }

  lemma UnionEmpty(a: set<Word>)
    ensures a + {} == a
  {
  }

  /** The scan of the word's own bucket (spell.go:38-48). */
  method ScanOwnBucket(word: Word, lex: Lexicon) returns (r: seq<Word>)
    requires ValidLexicon(lex) && lex.Some? && |word| >= MinLength
    ensures Distinct(r)
    ensures Elements(r) == OwnScan(lex, word)
    ensures Exact(lex, word) ==> |r| > 0 && r[0] == word
  {
    r := [];
    var length := |word|;
    if length in lex.value {
      var list := lex.value[length];
      if Has(list, word) {
        ElementsAppend(r, word);
        r := r + [word];
      }
      DistanceZeroIff(word, word);
      r := AppendNeighbours(word, list, r);
    }
  }

  /**
   * The scan of bucket `k`, a neighbouring length (spell.go:50-66): when
   * the bucket exists, its words at distance 1 are appended.
   */
  method ScanBucket(word: Word, lex: Lexicon, k: int, acc: seq<Word>) returns (r: seq<Word>)
    requires ValidLexicon(lex) && lex.Some?
    requires Distinct(acc)
    requires Elements(acc) !! Neighbours(word, Bucket(lex, k))
    ensures Distinct(r)
    ensures |r| >= |acc| && r[..|acc|] == acc
    ensures Elements(r) == Elements(acc) + Neighbours(word, Bucket(lex, k))
  {
    r := acc;
    if k in lex.value {
      r := AppendNeighbours(word, lex.value[k], r);
    } else {
      assert Neighbours(word, Bucket(lex, k)) == {};
    }
  }

  /** Every word of bucket `k`, and so every neighbour found there, has `k` runes. */
  lemma BucketLengths(lex: Lexicon, word: Word, k: int)
    requires ValidLexicon(lex)
    ensures forall u :: u in Bucket(lex, k) ==> |u| == k
    ensures forall u :: u in Neighbours(word, Bucket(lex, k)) ==> |u| == k
  {
  }

  /**
   * One `for w := range list` loop of `Check`: appends, in the map's
   * unspecified order, each word of `list` at distance 1 from `word`.
   */
  method AppendNeighbours(word: Word, list: WordList, acc: seq<Word>) returns (r: seq<Word>)
    requires Distinct(acc)
    requires Elements(acc) !! Neighbours(word, list)
    ensures |r| >= |acc| && r[..|acc|] == acc
    ensures Distinct(r)
    ensures Elements(r) == Elements(acc) + Neighbours(word, list)
  {
    r := acc;
    var rest := list;
    while rest != {}
      invariant rest <= list
      invariant |r| >= |acc| && r[..|acc|] == acc
      invariant Distinct(r)
      invariant Elements(r) == Elements(acc) + Neighbours(word, list - rest)
      decreases rest
    {
      var w :| w in rest;
      var d := Levenshtein(word, w);
      assert Neighbours(word, list - (rest - {w})) == Neighbours(word, list - rest) + (if d == 1 then {w} else {});
      if d == 1 {
        assert w in Neighbours(word, list) && w !in Elements(r);
        ElementsAppend(r, w);
        r := r + [w];
      }
      rest := rest - {w};
    }
  }
}
