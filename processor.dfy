/**
 * The text preprocessor (processor.go): training feeds the words of each
 * phrase to the spell checker and each pair of neighbouring words to the
 * semantic matcher; processing corrects every word of the input and cuts
 * the corrected words into phrases wherever a word was never seen after the
 * one before it.
 */
module Processing {
  import opened Wrappers
  import opened Words
  import opened Spell
  import opened Semantic
  import opened CharMap
  import opened Tokenizer

  // ---------------------------------------------------------------------
  // Training
  // ---------------------------------------------------------------------

  /** The matcher's table after `Train(words[i], words[i+1])` for every neighbouring pair, in order (processor.go:80-82). */
  function LearnPairs(contexts: Contexts, words: seq<Word>): Contexts
    decreases |words|
  {
    if |words| < 2 then contexts
    else Learn(LearnPairs(contexts, words[..|words| - 1]), words[|words| - 2], words[|words| - 1])
  }

  /** The spell checker's lexicon after training on every phrase in order (processor.go:77-79). */
  function TrainLexicon(lex: Lexicon, phrases: seq<seq<char>>): Lexicon
    decreases |phrases|
  {
    if |phrases| == 0 then lex
    else AddWords(TrainLexicon(lex, phrases[..|phrases| - 1]), Tokens(phrases[|phrases| - 1]))
  }

  /** The matcher's table after training on every phrase in order (processor.go:77-83). */
  function LearnPhrases(contexts: Contexts, phrases: seq<seq<char>>): Contexts
    decreases |phrases|
  {
    if |phrases| == 0 then contexts
    else LearnPairs(LearnPhrases(contexts, phrases[..|phrases| - 1]), Tokens(phrases[|phrases| - 1]))
  }

  /** `y` comes right after `x` somewhere in `words`. */
  predicate Adjacent(words: seq<Word>, x: Word, y: Word)
  {
    exists i :: 0 <= i < |words| - 1 && words[i] == x && words[i + 1] == y
  }

  /** `y` comes right after `x` in one of the phrases. */
  predicate AdjacentIn(phrases: seq<seq<char>>, x: Word, y: Word)
  {
    exists k :: 0 <= k < |phrases| && Adjacent(Tokens(phrases[k]), x, y)
  }

  /** After learning the pairs of `words`, `y` follows `x` exactly when it did before or `words` has `y` right after `x`. */
  lemma {:induction false} LearnPairsFollowers(contexts: Contexts, words: seq<Word>, x: Word, y: Word)
    ensures y in Followers(LearnPairs(contexts, words), x) <==> y in Followers(contexts, x) || Adjacent(words, x, y)
    decreases |words|
  {
    if |words| >= 2 {
      var n := |words|;
      var init := words[..n - 1];
      LearnPairsFollowers(contexts, init, x, y);
      if Adjacent(words, x, y) {
        var i :| 0 <= i < n - 1 && words[i] == x && words[i + 1] == y;
        if i < n - 2 {
          assert init[i] == x && init[i + 1] == y;
        }
      }
      if Adjacent(init, x, y) {
        var i :| 0 <= i < n - 2 && init[i] == x && init[i + 1] == y;
        assert words[i] == x && words[i + 1] == y;
      }
      if x == words[n - 2] && y == words[n - 1] {
        assert Adjacent(words, x, y) by {
          assert 0 <= n - 2 < n - 1;
        }
      }
    } else {
      assert !Adjacent(words, x, y);
    }
  }

  /**
   * After training on `phrases`, `y` is a follower of `x` exactly when it
   * was before or some phrase has the word `y` right after the word `x`.
   */
  lemma {:induction false} LearnPhrasesFollowers(contexts: Contexts, phrases: seq<seq<char>>, x: Word, y: Word)
    ensures y in Followers(LearnPhrases(contexts, phrases), x) <==> y in Followers(contexts, x) || AdjacentIn(phrases, x, y)
    decreases |phrases|
  {
    if |phrases| > 0 {
      var n := |phrases|;
      var init := phrases[..n - 1];
      LearnPhrasesFollowers(contexts, init, x, y);
      LearnPairsFollowers(LearnPhrases(contexts, init), Tokens(phrases[n - 1]), x, y);
      if AdjacentIn(init, x, y) {
        var k :| 0 <= k < n - 1 && Adjacent(Tokens(init[k]), x, y);
        assert init[k] == phrases[k];
      }
      if AdjacentIn(phrases, x, y) && !Adjacent(Tokens(phrases[n - 1]), x, y) {
        var k :| 0 <= k < n && Adjacent(Tokens(phrases[k]), x, y);
        assert phrases[k] == init[k];
      }
    } else {
      assert !AdjacentIn(phrases, x, y);
    }
  }

  /** The words training puts in the lexicon's bucket `n`: the tokens of length `n`, if `n` is at least the minimum length. */
  ghost function TrainedIn(phrases: seq<seq<char>>, n: int): set<Word>
  {
    set k, w | 0 <= k < |phrases| && w in Trained(Tokens(phrases[k]), n) :: w
  }

  /**
   * Training on `phrases` adds to each bucket the tokens of the phrases with
   * that length, and nothing else; a valid lexicon stays valid.
   */
  lemma {:induction false} TrainLexiconBuckets(lex: Lexicon, phrases: seq<seq<char>>)
    requires ValidLexicon(lex)
    ensures ValidLexicon(TrainLexicon(lex, phrases))
    ensures forall n :: Bucket(TrainLexicon(lex, phrases), n) == Bucket(lex, n) + TrainedIn(phrases, n)
    decreases |phrases|
  {
    if |phrases| > 0 {
      var m := |phrases|;
      var init := phrases[..m - 1];
      var prev := TrainLexicon(lex, init);
      TrainLexiconBuckets(lex, init);
      AddWordsValid(prev, Tokens(phrases[m - 1]));
      AddWordsBuckets(prev, Tokens(phrases[m - 1]));
      forall n
        ensures TrainedIn(phrases, n) == TrainedIn(init, n) + Trained(Tokens(phrases[m - 1]), n)
      {
        TrainedInSnoc(phrases, n);
      }
    } else {
      forall n
        ensures TrainedIn(phrases, n) == {}
      {
      }
    }
  }

  lemma TrainedInSnoc(phrases: seq<seq<char>>, n: int)
    requires |phrases| > 0
    ensures TrainedIn(phrases, n) == TrainedIn(phrases[..|phrases| - 1], n) + Trained(Tokens(phrases[|phrases| - 1]), n)
  {
    var m := |phrases|;
    var init := phrases[..m - 1];
    forall w | w in TrainedIn(phrases, n)
      ensures w in TrainedIn(init, n) + Trained(Tokens(phrases[m - 1]), n)
    {
      var k :| 0 <= k < m && w in Trained(Tokens(phrases[k]), n);
      if k < m - 1 {
        assert init[k] == phrases[k];
      }
    }
    forall w | w in TrainedIn(init, n)
      ensures w in TrainedIn(phrases, n)
    {
      var k :| 0 <= k < m - 1 && w in Trained(Tokens(init[k]), n);
      assert init[k] == phrases[k];
    }
  }

  // ---------------------------------------------------------------------
  // Processing
  // ---------------------------------------------------------------------

  /** The word chosen for one token, and whether it opens a new phrase. */
  datatype Pick = Pick(word: Word, opens: bool)

  /**
   * The words `Process` chooses, given the suggestion lists of the tokens
   * (processor.go:98-113): the first suggestion of the first token opens a
   * phrase; every later token takes what the matcher picks in the context of
   * the word chosen before it, and opens a phrase when that is not a match.
   */
  function Picks(contexts: Contexts, lists: seq<seq<Word>>): (r: seq<Pick>)
    requires forall i :: 0 <= i < |lists| ==> |lists[i]| > 0
    ensures |r| == |lists|
    decreases |lists|
  {
    if |lists| == 0 then []
    else if |lists| == 1 then [Pick(lists[0][0], true)]
    else
      var prev := Picks(contexts, lists[..|lists| - 1]);
      var (best, matched) := Best(contexts, prev[|prev| - 1].word, lists[|lists| - 1]);
      prev + [Pick(best, !matched)]
  }

  /** The chosen words cut into phrases: a pick that opens starts a new phrase, any other joins the current one. */
  function Group(picks: seq<Pick>): seq<seq<Word>>
    decreases |picks|
  {
    if |picks| == 0 then []
    else
      var g := Group(picks[..|picks| - 1]);
      var p := picks[|picks| - 1];
      if p.opens || |g| == 0 then g + [[p.word]]
      else g[..|g| - 1] + [g[|g| - 1] + [p.word]]
  }

  /** `strings.Join(words, " ")`. */
  function Join(words: seq<Word>): seq<char>
    decreases |words|
  {
    if |words| == 0 then []
    else if |words| == 1 then words[0]
    else Join(words[..|words| - 1]) + " " + words[|words| - 1]
  }

  /**
   * Reading a joined phrase gives its words back: the space that joins them
   * is a rune the table does not list, so it ends each word and is dropped.
   */
  lemma {:induction false} JoinRetokenizes(words: seq<Word>)
    requires forall i :: 0 <= i < |words| ==> IsToken(words[i])
    ensures Tokens(Join(words)) == words
    decreases |words|
  {
    if |words| == 1 {
      RetokenizeToken(words[0]);
      SnocLast(words);
    } else if |words| > 1 {
      var init, last := words[..|words| - 1], words[|words| - 1];
      JoinRetokenizes(init);
      RetokenizeToken(last);
      SnocLast(words);
      JoinSnocTokens(init, last);
    }
  }

  lemma JoinSnocTokens(init: seq<Word>, last: Word)
    requires |init| > 0 && Tokens(Join(init)) == init && Tokens(last) == [last]
    ensures Tokens(Join(init + [last])) == init + [last]
  {
    var words := init + [last];
    assert words[..|words| - 1] == init;
    assert Join(words) == Join(init) + [' '] + last;
    SpaceIsUnlisted();
    TokensAroundBreak(Join(init), ' ', last);
  }

  /** Every phrase joined into one string. */
  function Render(groups: seq<seq<Word>>): (r: seq<seq<char>>)
    ensures |r| == |groups|
    decreases |groups|
  {
    if |groups| == 0 then [] else Render(groups[..|groups| - 1]) + [Join(groups[|groups| - 1])]
  }

  /** All the words of all the phrases, in order. */
  function Flatten(groups: seq<seq<Word>>): seq<Word>
    decreases |groups|
  {
    if |groups| == 0 then [] else Flatten(groups[..|groups| - 1]) + groups[|groups| - 1]
  }

  /** The words of the picks, in order. */
  function WordsOf(picks: seq<Pick>): (r: seq<Word>)
    ensures |r| == |picks| && forall i :: 0 <= i < |picks| ==> r[i] == picks[i].word
    decreases |picks|
  {
    if |picks| == 0 then [] else WordsOf(picks[..|picks| - 1]) + [picks[|picks| - 1].word]
  }

  /** How many picks open a phrase. */
  function Openings(picks: seq<Pick>): nat
    decreases |picks|
  {
    if |picks| == 0 then 0 else Openings(picks[..|picks| - 1]) + if picks[|picks| - 1].opens then 1 else 0
  }

  /** Grouping loses no word and adds none: the phrases, read in order, are the picked words. */
  lemma {:induction false} GroupWords(picks: seq<Pick>)
    ensures Flatten(Group(picks)) == WordsOf(picks)
    decreases |picks|
  {
    if |picks| > 0 {
      var init, p := picks[..|picks| - 1], picks[|picks| - 1];
      var g := Group(init);
      GroupWords(init);
      assert WordsOf(picks) == WordsOf(init) + [p.word];
      if p.opens || |g| == 0 {
        assert Group(picks) == g + [[p.word]];
        SnocParts(g, [p.word]);
      } else {
        var front, last := g[..|g| - 1], g[|g| - 1];
        assert Group(picks) == front + [last + [p.word]];
        SnocParts(front, last + [p.word]);
        FlattenSnoc(g);
      }
    }
  }

  /**
   * Grouping gives no empty phrase and makes one phrase per opening pick
   * when the first pick opens; the last word of the last phrase is the last
   * pick.
   */
  lemma {:induction false} GroupShape(picks: seq<Pick>)
    requires |picks| > 0 ==> picks[0].opens
    ensures forall j :: 0 <= j < |Group(picks)| ==> |Group(picks)[j]| > 0
    ensures |Group(picks)| == Openings(picks)
    ensures |picks| > 0 ==> |Group(picks)| > 0 && Group(picks)[|Group(picks)| - 1][|Group(picks)[|Group(picks)| - 1]| - 1] == picks[|picks| - 1].word
    decreases |picks|
  {
    if |picks| > 0 {
      var init, p := picks[..|picks| - 1], picks[|picks| - 1];
      var g := Group(init);
      assert |init| > 0 ==> init[0] == picks[0];
      GroupShape(init);
      if p.opens || |g| == 0 {
        assert Group(picks) == g + [[p.word]];
        assert |init| == 0 ==> p.opens;
      } else {
        assert Group(picks) == g[..|g| - 1] + [g[|g| - 1] + [p.word]];
      }
    }
  }

  lemma FlattenSnoc(g: seq<seq<Word>>)
    requires |g| > 0
    ensures Flatten(g) == Flatten(g[..|g| - 1]) + g[|g| - 1]
  {
  }

  /** Every pick that does not open a phrase follows the pick before it in the table. */
  ghost predicate Chained(contexts: Contexts, picks: seq<Pick>)
  {
    forall i :: 0 < i < |picks| && !picks[i].opens ==> picks[i].word in Followers(contexts, picks[i - 1].word)
  }

  /** Each word of the phrase `g` after the first follows the word before it in the table. */
  ghost predicate Followed(contexts: Contexts, g: seq<Word>)
  {
    forall j :: 0 < j < |g| ==> g[j] in Followers(contexts, g[j - 1])
  }

  /** The picks are the matcher's answers: the `i`-th is `Best` in the context of the word chosen before it. */
  lemma {:induction false} PicksAreBest(contexts: Contexts, lists: seq<seq<Word>>, i: nat)
    requires forall j :: 0 <= j < |lists| ==> |lists[j]| > 0
    requires 0 < i < |lists|
    ensures (Picks(contexts, lists)[i].word, !Picks(contexts, lists)[i].opens)
         == Best(contexts, Picks(contexts, lists)[i - 1].word, lists[i])
    decreases |lists|
  {
    var n := |lists|;
    var init := lists[..n - 1];
    if i < n - 1 {
      PicksAreBest(contexts, init, i);
      assert init[i] == lists[i];
    }
  }

  /**
   * What each token gets: the first pick is the first suggestion and opens a
   * phrase; every later pick is one of its token's suggestions, and it opens
   * a phrase exactly when none of those suggestions ever followed the word
   * chosen before it; when it does not open one, it is the first suggestion
   * that did follow that word, and otherwise the first suggestion.
   */
  lemma PicksFollow(contexts: Contexts, lists: seq<seq<Word>>, i: nat)
    requires forall j :: 0 <= j < |lists| ==> |lists[j]| > 0
    requires i < |lists|
    ensures Picks(contexts, lists)[i].word in lists[i]
    ensures i == 0 ==> Picks(contexts, lists)[0] == Pick(lists[0][0], true)
    ensures i > 0 ==>
      (Picks(contexts, lists)[i].opens <==>
         forall k :: 0 <= k < |lists[i]| ==> lists[i][k] !in Followers(contexts, Picks(contexts, lists)[i - 1].word))
    ensures i > 0 && !Picks(contexts, lists)[i].opens ==>
      exists k :: 0 <= k < |lists[i]| && Picks(contexts, lists)[i].word == lists[i][k]
        && lists[i][k] in Followers(contexts, Picks(contexts, lists)[i - 1].word)
        && forall j :: 0 <= j < k ==> lists[i][j] !in Followers(contexts, Picks(contexts, lists)[i - 1].word)
    ensures i > 0 && Picks(contexts, lists)[i].opens ==> Picks(contexts, lists)[i].word == lists[i][0]
  {
    if i == 0 {
      PicksFirst(contexts, lists);
    } else {
      PicksAreBest(contexts, lists, i);
      BestIsFirstFollower(contexts, Picks(contexts, lists)[i - 1].word, lists[i]);
    }
  }

  lemma {:induction false} PicksFirst(contexts: Contexts, lists: seq<seq<Word>>)
    requires forall j :: 0 <= j < |lists| ==> |lists[j]| > 0
    requires |lists| > 0
    ensures Picks(contexts, lists)[0] == Pick(lists[0][0], true)
    decreases |lists|
  {
    if |lists| > 1 {
      var init := lists[..|lists| - 1];
      PicksFirst(contexts, init);
      assert init[0] == lists[0];
    }
  }

  /** One more token: its pick is the matcher's answer in the context of the last word chosen. */
  lemma PicksSnoc(contexts: Contexts, lists: seq<seq<Word>>, s: seq<Word>)
    requires forall j :: 0 <= j < |lists| ==> |lists[j]| > 0
    requires |lists| > 0 && |s| > 0
    ensures forall j :: 0 <= j < |lists + [s]| ==> |(lists + [s])[j]| > 0
    ensures Picks(contexts, lists + [s])
         == Picks(contexts, lists) + [Pick(Best(contexts, Picks(contexts, lists)[|lists| - 1].word, s).0,
                                           !Best(contexts, Picks(contexts, lists)[|lists| - 1].word, s).1)]
  {
    assert (lists + [s])[..|lists|] == lists;
  }

  /** The picks never put a word after one it was not seen after. */
  lemma PicksChained(contexts: Contexts, lists: seq<seq<Word>>)
    requires forall j :: 0 <= j < |lists| ==> |lists[j]| > 0
    ensures Chained(contexts, Picks(contexts, lists))
  {
    var picks := Picks(contexts, lists);
    forall i | 0 < i < |picks| && !picks[i].opens
      ensures picks[i].word in Followers(contexts, picks[i - 1].word)
    {
      PicksFollow(contexts, lists, i);
    }
  }

  lemma ChainedPrefix(contexts: Contexts, picks: seq<Pick>)
    requires |picks| > 0 && picks[0].opens && Chained(contexts, picks)
    ensures Chained(contexts, picks[..|picks| - 1])
    ensures |picks| > 1 ==> picks[..|picks| - 1][0].opens
  {
    var init := picks[..|picks| - 1];
    forall i | 0 < i < |init| && !init[i].opens
      ensures init[i].word in Followers(contexts, init[i - 1].word)
    {
      assert init[i] == picks[i] && init[i - 1] == picks[i - 1];
    }
  }

  lemma FollowedSnoc(contexts: Contexts, g: seq<Word>, w: Word)
    requires |g| > 0 && Followed(contexts, g) && w in Followers(contexts, g[|g| - 1])
    ensures Followed(contexts, g + [w])
  {
    var h := g + [w];
    forall j | 0 < j < |h|
      ensures h[j] in Followers(contexts, h[j - 1])
    {
      if j < |g| {
        assert h[j] == g[j] && h[j - 1] == g[j - 1];
      }
    }
  }

  lemma GroupSnoc(picks: seq<Pick>, p: Pick)
    ensures Group(picks + [p])
         == if p.opens || |Group(picks)| == 0 then Group(picks) + [[p.word]]
            else Group(picks)[..|Group(picks)| - 1] + [Group(picks)[|Group(picks)| - 1] + [p.word]]
  {
    assert (picks + [p])[..|picks|] == picks;
  }

  /** In every phrase cut from chained picks, each word follows the word before it. */
  lemma {:induction false} GroupChained(contexts: Contexts, picks: seq<Pick>)
    requires |picks| > 0 ==> picks[0].opens
    requires Chained(contexts, picks)
    ensures forall g :: g in Group(picks) ==> Followed(contexts, g)
    decreases |picks|
  {
    if |picks| > 0 {
      var init := picks[..|picks| - 1];
      var p := picks[|picks| - 1];
      var g := Group(init);
      ChainedPrefix(contexts, picks);
      GroupChained(contexts, init);
      if !p.opens && |g| > 0 {
        GroupShape(init);
        var last := g[|g| - 1];
        assert last[|last| - 1] == picks[|picks| - 2].word;
        assert last in g;
        FollowedSnoc(contexts, last, p.word);
        var r := Group(picks);
        assert r == g[..|g| - 1] + [last + [p.word]];
        forall h | h in r
          ensures Followed(contexts, h)
        {
          var j :| 0 <= j < |r| && r[j] == h;
          if j < |g| - 1 {
            assert h == g[j];
          }
        }
      } else {
        assert Group(picks) == g + [[p.word]];
      }
    }
  }

  /**
   * What `Process` returns for tokens with the suggestion lists `lists`: the
   * chosen words cut into phrases, each phrase joined with spaces.
   */
  function Phrases(contexts: Contexts, lists: seq<seq<Word>>): seq<seq<char>>
    requires forall i :: 0 <= i < |lists| ==> |lists[i]| > 0
  {
    Render(Group(Picks(contexts, lists)))
  }

  /** One phrase per token whose pick opens a phrase; no token, no phrase, otherwise at least one. */
  lemma PhrasesCount(contexts: Contexts, lists: seq<seq<Word>>)
    requires forall i :: 0 <= i < |lists| ==> |lists[i]| > 0
    ensures |Phrases(contexts, lists)| == Openings(Picks(contexts, lists))
    ensures |lists| == 0 <==> |Phrases(contexts, lists)| == 0
  {
    if |lists| > 0 {
      PicksFirst(contexts, lists);
    }
    GroupShape(Picks(contexts, lists));
  }

  /**
   * The phrases hold the chosen words, none of them empty, one word per
   * token in order, each taken from its token's suggestions.
   */
  lemma PhrasesWords(contexts: Contexts, lists: seq<seq<Word>>)
    requires forall i :: 0 <= i < |lists| ==> |lists[i]| > 0
    ensures forall g :: g in Group(Picks(contexts, lists)) ==> |g| > 0
    ensures |Flatten(Group(Picks(contexts, lists)))| == |lists|
    ensures forall i :: 0 <= i < |lists| ==> Flatten(Group(Picks(contexts, lists)))[i] in lists[i]
  {
    var picks := Picks(contexts, lists);
    if |lists| > 0 {
      PicksFirst(contexts, lists);
    }
    GroupShape(picks);
    GroupWords(picks);
    forall i | 0 <= i < |lists|
      ensures Flatten(Group(picks))[i] in lists[i]
    {
      PicksFollow(contexts, lists, i);
    }
    forall g | g in Group(picks)
      ensures |g| > 0
    {
      var j :| 0 <= j < |Group(picks)| && Group(picks)[j] == g;
    }
  }

  /** Within each phrase, every word follows the word before it in the matcher's table. */
  lemma PhrasesFollowed(contexts: Contexts, lists: seq<seq<Word>>)
    requires forall i :: 0 <= i < |lists| ==> |lists[i]| > 0
    ensures forall g :: g in Group(Picks(contexts, lists)) ==> Followed(contexts, g)
  {
    if |lists| > 0 {
      PicksFirst(contexts, lists);
    }
    PicksChained(contexts, lists);
    GroupChained(contexts, Picks(contexts, lists));
  }

  /** `Processor`, with the two default collaborators. */
  class Processor {
    var checker: SpellChecker
    var matcher: SemanticMatcher

    ghost predicate Valid()
      reads this, checker
    {
      checker.Valid()
    }

    /** A processor whose fields `ensureFields` has filled (processor.go:61-71): a fresh default spell checker and matcher. */
    constructor ()
      ensures Valid() && fresh(checker) && fresh(matcher)
      ensures checker.lexicon == None && matcher.contexts == None
    {
      checker := new SpellChecker();
      matcher := new SemanticMatcher();
    }

    /** `Train` (processor.go:74-84). */
    method Train(phrases: seq<seq<char>>)
      requires Valid()
      modifies checker, matcher
      ensures Valid()
      ensures checker.lexicon == TrainLexicon(old(checker.lexicon), phrases)
      ensures matcher.contexts == LearnPhrases(old(matcher.contexts), phrases)
    {
      for k := 0 to |phrases|
        invariant Valid()
        invariant checker.lexicon == TrainLexicon(old(checker.lexicon), phrases[..k])
        invariant matcher.contexts == LearnPhrases(old(matcher.contexts), phrases[..k])
      {
        assert phrases[..k + 1][..k] == phrases[..k];
        var words := ReadWords(phrases[k]);
        checker.Train(words);
        TrainPairs(words);
      }
      assert phrases[..|phrases|] == phrases;
    }

    /** The pairs loop of `Train` (processor.go:80-82). */
    method TrainPairs(words: seq<Word>)
      modifies matcher
      ensures matcher.contexts == LearnPairs(old(matcher.contexts), words)
    {
      if |words| == 0 {
        return;
      }
      for i := 0 to |words| - 1
        invariant matcher.contexts == LearnPairs(old(matcher.contexts), words[..i + 1])
      {
        assert words[..i + 2][..i + 1] == words[..i + 1];
        matcher.Train(words[i], words[i + 1]);
      }
      assert words[..|words|] == words;
    }

    /**
     * `Process` (processor.go:87-120). The suggestion lists the spell
     * checker gave are returned as `lists`, because the order of the
     * suggestions after the first is left open.
     */
    method Process(input: seq<char>) returns (phrases: seq<seq<char>>, ghost lists: seq<seq<Word>>)
      requires Valid()
      ensures |lists| == |Tokens(input)|
      ensures forall i :: 0 <= i < |lists| ==> Suggests(checker.lexicon, Tokens(input)[i], lists[i])
      ensures forall i :: 0 <= i < |lists| ==> |lists[i]| > 0
      ensures phrases == Phrases(matcher.contexts, lists)
      ensures |phrases| == 0 <==> |Tokens(input)| == 0
    {
      var words := ReadWords(input);
      phrases := [];
      lists := [];
      var current: seq<Word> := [];
      ghost var done: seq<seq<Word>> := [];
      for i := 0 to |words|
        invariant |lists| == i
        invariant AllSuggest(checker.lexicon, words, lists)
        invariant Cut(matcher.contexts, lists, phrases, current, done)
      {
        var suggestions := checker.Check(words[i]);
        AllSuggestSnoc(checker.lexicon, words, lists, suggestions);
        if |current| == 0 {
          CutFirst(matcher.contexts, lists, phrases, done, suggestions);
          lists := lists + [suggestions];
          current := [suggestions[0]];
          continue;
        }
        var context := current[|current| - 1];
        var best, matched := matcher.Match(context, suggestions);
        if !matched {
          CutOpen(matcher.contexts, lists, phrases, current, done, suggestions);
          lists := lists + [suggestions];
          phrases := phrases + [Join(current)];
          done := done + [current];
          current := [best];
        } else {
          CutJoin(matcher.contexts, lists, phrases, current, done, suggestions);
          lists := lists + [suggestions];
          current := current + [best];
        }
      }
      CutEnd(matcher.contexts, lists, phrases, current, done);
      if |current| != 0 {
        phrases := phrases + [Join(current)];
      }
      PhrasesCount(matcher.contexts, lists);
    }
  }

  /** Every suggestion list so far is what `Check` promises for its token. */
  ghost predicate AllSuggest(lex: Lexicon, words: seq<Word>, lists: seq<seq<Word>>)
  {
    |lists| <= |words| && forall j :: 0 <= j < |lists| ==> Suggests(lex, words[j], lists[j])
  }

  lemma AllSuggestSnoc(lex: Lexicon, words: seq<Word>, lists: seq<seq<Word>>, s: seq<Word>)
    requires AllSuggest(lex, words, lists) && |lists| < |words| && Suggests(lex, words[|lists|], s)
    ensures AllSuggest(lex, words, lists + [s])
    ensures forall j :: 0 <= j < |lists + [s]| ==> |(lists + [s])[j]| > 0
  {
  }

  predicate NonEmpty(lists: seq<seq<Word>>)
  {
    forall i :: 0 <= i < |lists| ==> |lists[i]| > 0
  }

  /**
   * The state of the loop of `Process` after the tokens with suggestion
   * lists `lists`: `phrases` holds the finished phrases `done`, and `current`
   * is the phrase being built, ending with the last word chosen.
   */
  ghost predicate Cut(contexts: Contexts, lists: seq<seq<Word>>, phrases: seq<seq<char>>, current: seq<Word>, done: seq<seq<Word>>)
  {
    && NonEmpty(lists)
    && phrases == Render(done)
    && (|lists| == 0 ==> current == [] && done == [])
    && (|lists| > 0 ==>
         && |current| > 0
         && Group(Picks(contexts, lists)) == done + [current]
         && current[|current| - 1] == Picks(contexts, lists)[|lists| - 1].word)
  }

  lemma CutFirst(contexts: Contexts, lists: seq<seq<Word>>, phrases: seq<seq<char>>, done: seq<seq<Word>>, s: seq<Word>)
    requires Cut(contexts, lists, phrases, [], done) && |s| > 0
    ensures |lists| == 0
    ensures Cut(contexts, lists + [s], phrases, [s[0]], done)
  {
    GroupSnoc([], Pick(s[0], true));
    assert lists + [s] == [s];
  }

  /** A token whose pick matches the last word chosen joins the current phrase. */
  lemma CutJoin(contexts: Contexts, lists: seq<seq<Word>>, phrases: seq<seq<char>>, current: seq<Word>, done: seq<seq<Word>>, s: seq<Word>)
    requires Cut(contexts, lists, phrases, current, done) && |current| > 0 && |s| > 0
    requires Best(contexts, current[|current| - 1], s).1
    ensures Cut(contexts, lists + [s], phrases, current + [Best(contexts, current[|current| - 1], s).0], done)
  {
    var picks, best := Picks(contexts, lists), Best(contexts, current[|current| - 1], s).0;
    PicksSnoc(contexts, lists, s);
    assert Picks(contexts, lists + [s]) == picks + [Pick(best, false)];
    GroupSnoc(picks, Pick(best, false));
    SnocParts(done, current);
    assert Group(picks + [Pick(best, false)]) == done + [current + [best]];
  }

  /** The parts of a sequence with one element added at the end. */
  lemma SnocParts<T>(d: seq<T>, x: T)
    ensures |d + [x]| == |d| + 1 && (d + [x])[..|d|] == d && (d + [x])[|d|] == x
  {
    assert (d + [x])[..|d|] == d;
  }

  /** A token whose pick does not match the last word chosen closes the current phrase and opens the next. */
  lemma CutOpen(contexts: Contexts, lists: seq<seq<Word>>, phrases: seq<seq<char>>, current: seq<Word>, done: seq<seq<Word>>, s: seq<Word>)
    requires Cut(contexts, lists, phrases, current, done) && |current| > 0 && |s| > 0
    requires !Best(contexts, current[|current| - 1], s).1
    ensures Cut(contexts, lists + [s], phrases + [Join(current)], [Best(contexts, current[|current| - 1], s).0], done + [current])
  {
    var picks, best := Picks(contexts, lists), Best(contexts, current[|current| - 1], s).0;
    PicksSnoc(contexts, lists, s);
    assert Picks(contexts, lists + [s]) == picks + [Pick(best, true)];
    GroupSnoc(picks, Pick(best, true));
    RenderSnoc(done, current);
  }

  lemma CutEnd(contexts: Contexts, lists: seq<seq<Word>>, phrases: seq<seq<char>>, current: seq<Word>, done: seq<seq<Word>>)
    requires Cut(contexts, lists, phrases, current, done)
    ensures NonEmpty(lists)
    ensures (if |current| != 0 then phrases + [Join(current)] else phrases) == Phrases(contexts, lists)
  {
    if |current| != 0 {
      RenderSnoc(done, current);
    }
  }

  lemma RenderSnoc(groups: seq<seq<Word>>, g: seq<Word>)
    ensures Render(groups + [g]) == Render(groups) + [Join(g)]
  {
    assert (groups + [g])[..|groups|] == groups;
  }
}
