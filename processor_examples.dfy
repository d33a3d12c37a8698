/**
 * The outcomes processor_test.go expects, derived from the model: a
 * processor trained on "bass guitar" and "spanish rosetta stone" turns
 * "electric base guitarr" into "electric" and "bass guitar", "english
 * rosetta stone" into "english" and "rosetta stone", and "spannish rosetta
 * stone" into "spanish rosetta stone". The model fixes the order of the
 * phrases too, which the test leaves open.
 */
module ProcessorExamples {
  import opened Wrappers
  import opened Words
  import opened Algo
  import opened Spell
  import opened Semantic
  import opened Tokenizer
  import opened Processing
  import SpellExamples

  /** The phrases processor_test.go trains on. */
  const Training: seq<seq<char>> := ["bass guitar", "spanish rosetta stone"]

  /** The lexicon training leaves behind. */
  const Lex: Lexicon := Some(map[4 := {"bass"}, 5 := {"stone"}, 6 := {"guitar"}, 7 := {"spanish", "rosetta"}])

  /** The matcher's table training leaves behind. */
  const Table: Contexts := Some(map["bass" := {"guitar"}, "spanish" := {"rosetta"}, "rosetta" := {"stone"}])

  /** Words of lower-case letters joined with spaces read back as those words. */
  lemma ReadJoined(words: seq<Word>, s: seq<char>)
    requires forall i :: 0 <= i < |words| ==> |words[i]| > 0 && forall j :: 0 <= j < |words[i]| ==> 'a' <= words[i][j] <= 'z'
    requires s == Join(words)
    ensures Tokens(s) == words
  {
    forall i | 0 <= i < |words|
      ensures IsToken(words[i])
    {
      LowerCaseIsToken(words[i]);
    }
    JoinRetokenizes(words);
  }

  lemma BassGuitarTokens()
    ensures Tokens("bass guitar") == ["bass", "guitar"]
  {
    ReadJoined(["bass", "guitar"], "bass guitar");
  }

  lemma SpanishRosettaStoneTokens()
    ensures Tokens("spanish rosetta stone") == ["spanish", "rosetta", "stone"]
  {
    ReadJoined(["spanish", "rosetta", "stone"], "spanish rosetta stone");
  }

  /** Training on the first phrase fills the buckets 4 and 6. */
  lemma FirstPhraseLexicon()
    ensures AddWords(None, ["bass", "guitar"]) == Some(map[4 := {"bass"}, 6 := {"guitar"}])
  {
    var words: seq<Word> := ["bass", "guitar"];
    var l1 := Some(map[4 := {"bass"}]);
    assert |words[0]| == 4 && |words[1]| == 6;
    assert Add({}, words[0]) == {"bass"} && Add({}, words[1]) == {"guitar"};
    assert AddWord(None, words[0]) == l1;
    assert AddWord(l1, words[1]) == Some(map[4 := {"bass"}, 6 := {"guitar"}]);
    assert words[..1][..0] == [] && words[..2][..1] == words[..1] && words[..2] == words;
  }

  /** Training on the second phrase adds the buckets 7 and 5. */
  lemma SecondPhraseLexicon()
    ensures AddWords(Some(map[4 := {"bass"}, 6 := {"guitar"}]), ["spanish", "rosetta", "stone"]) == Lex
  {
    var words: seq<Word> := ["spanish", "rosetta", "stone"];
    var l2 := Some(map[4 := {"bass"}, 6 := {"guitar"}]);
    var l3 := Some(map[4 := {"bass"}, 6 := {"guitar"}, 7 := {"spanish"}]);
    var l4 := Some(map[4 := {"bass"}, 6 := {"guitar"}, 7 := {"spanish", "rosetta"}]);
    assert |words[0]| == 7 && |words[1]| == 7 && |words[2]| == 5;
    assert Add({}, words[0]) == {"spanish"} && Add({}, words[2]) == {"stone"};
    assert AddWord(l2, words[0]) == l3;
    assert Add({"spanish"}, words[1]) == {"spanish", "rosetta"};
    assert l3.value[7 := {"spanish", "rosetta"}] == l4.value;
    assert AddWord(l3, words[1]) == l4;
    assert l4.value[5 := {"stone"}] == Lex.value;
    assert AddWord(l4, words[2]) == Lex;
    assert words[..1][..0] == [] && words[..2][..1] == words[..1] && words[..3][..2] == words[..2] && words[..3] == words;
    assert AddWords(l2, words[..1]) == l3;
    assert AddWords(l2, words[..2]) == l4;
  }

  /** The lexicon after training: each word in the bucket of its length. */
  lemma TrainedLexicon()
    ensures TrainLexicon(None, Training) == Lex
  {
    BassGuitarTokens();
    SpanishRosettaStoneTokens();
    FirstPhraseLexicon();
    SecondPhraseLexicon();
    assert Training[..1][..0] == [] && Training[..2][..1] == Training[..1] && Training[..2] == Training;
  }

  lemma FirstPhraseTable()
    ensures LearnPairs(None, ["bass", "guitar"]) == Some(map["bass" := {"guitar"}])
  {
    var words: seq<Word> := ["bass", "guitar"];
    assert words[..1] == ["bass"];
    assert Add({}, "guitar") == {"guitar"};
    assert Learn(None, "bass", "guitar") == Some(map["bass" := {"guitar"}]);
  }

  lemma SecondPhraseTable()
    ensures LearnPairs(Some(map["bass" := {"guitar"}]), ["spanish", "rosetta", "stone"]) == Table
  {
    var words: seq<Word> := ["spanish", "rosetta", "stone"];
    var t1 := Some(map["bass" := {"guitar"}]);
    var t2 := Some(map["bass" := {"guitar"}, "spanish" := {"rosetta"}]);
    assert words[..2][..1] == ["spanish"] && words[..3][..2] == words[..2] && words[..3] == words;
    assert Add({}, "rosetta") == {"rosetta"} && Add({}, "stone") == {"stone"};
    assert t1.value["spanish" := {"rosetta"}] == t2.value;
    assert Learn(t1, "spanish", "rosetta") == t2;
    assert LearnPairs(t1, words[..2]) == t2;
    assert t2.value["rosetta" := {"stone"}] == Table.value;
    assert Learn(t2, "rosetta", "stone") == Table;
  }

  /** The matcher's table after training: each word with the word after it. */
  lemma TrainedTable()
    ensures LearnPhrases(None, Training) == Table
  {
    BassGuitarTokens();
    SpanishRosettaStoneTokens();
    FirstPhraseTable();
    SecondPhraseTable();
    assert Training[..1][..0] == [] && Training[..2][..1] == Training[..1] && Training[..2] == Training;
  }

  // Distances between the test words and the trained words.

  lemma BaseBass()
    ensures Distance("base", "bass") == 1
  {
    DistanceOneEdit("bas", 'e', 's', "");
    assert "bas" + ['e'] + "" == "base" && "bas" + ['s'] + "" == "bass";
    DistanceZeroIff("base", "bass");
  }

  lemma GuitarrGuitar()
    ensures Distance("guitarr", "guitar") == 1
  {
    DistanceOneEdit("guitar", 'r', 'r', "");
    assert "guitar" + ['r'] + "" == "guitarr" && "guitar" + "" == "guitar";
    DistanceZeroIff("guitarr", "guitar");
  }

  lemma SpannishSpanish()
    ensures Distance("spannish", "spanish") == 1
  {
    DistanceOneEdit("span", 'n', 'n', "ish");
    assert "span" + ['n'] + "ish" == "spannish" && "span" + "ish" == "spanish";
    DistanceZeroIff("spannish", "spanish");
  }

  /** Two words are at least two edits apart when `v` has two more runes of `c` than `w`. */
  lemma FarApart(v: Word, w: Word, c: set<char>)
    requires CountIn(v, c, 0, |v|) >= CountIn(w, c, 0, |w|) + 2
    ensures Distance(v, w) >= 2
  {
    DistanceCountGap(v, w, c);
  }

  lemma ElectricSpanish()
    ensures Distance("electric", "spanish") >= 2
  {
    assert CountIn("electric", {'l', 'c'}, 0, 8) == 3;
    assert CountIn("spanish", {'l', 'c'}, 0, 7) == 0;
    FarApart("electric", "spanish", {'l', 'c'});
  }

  lemma ElectricRosetta()
    ensures Distance("electric", "rosetta") >= 2
  {
    assert CountIn("electric", {'l', 'c'}, 0, 8) == 3;
    assert CountIn("rosetta", {'l', 'c'}, 0, 7) == 0;
    FarApart("electric", "rosetta", {'l', 'c'});
  }

  lemma BaseStone()
    ensures Distance("base", "stone") >= 2
  {
    assert CountIn("base", {'b', 'a'}, 0, 4) == 2;
    assert CountIn("stone", {'b', 'a'}, 0, 5) == 0;
    FarApart("base", "stone", {'b', 'a'});
  }

  lemma GuitarrSpanish()
    ensures Distance("guitarr", "spanish") >= 2
  {
    assert CountIn("guitarr", {'g', 'u'}, 0, 7) == 2;
    assert CountIn("spanish", {'g', 'u'}, 0, 7) == 0;
    FarApart("guitarr", "spanish", {'g', 'u'});
  }

  lemma GuitarrRosetta()
    ensures Distance("guitarr", "rosetta") >= 2
  {
    assert CountIn("guitarr", {'g', 'u'}, 0, 7) == 2;
    assert CountIn("rosetta", {'g', 'u'}, 0, 7) == 0;
    FarApart("guitarr", "rosetta", {'g', 'u'});
  }

  lemma EnglishSpanish()
    ensures Distance("english", "spanish") >= 2
  {
    assert CountIn("english", {'g', 'l'}, 0, 7) == 2;
    assert CountIn("spanish", {'g', 'l'}, 0, 7) == 0;
    FarApart("english", "spanish", {'g', 'l'});
  }

  lemma EnglishRosetta()
    ensures Distance("english", "rosetta") >= 2
  {
    assert CountIn("english", {'n', 'l'}, 0, 7) == 2;
    assert CountIn("rosetta", {'n', 'l'}, 0, 7) == 0;
    FarApart("english", "rosetta", {'n', 'l'});
  }

  lemma EnglishGuitar()
    ensures Distance("english", "guitar") >= 2
  {
    assert CountIn("english", {'n', 'l'}, 0, 7) == 2;
    assert CountIn("guitar", {'n', 'l'}, 0, 6) == 0;
    FarApart("english", "guitar", {'n', 'l'});
  }

  lemma RosettaSpanish()
    ensures Distance("rosetta", "spanish") >= 2
  {
    assert CountIn("rosetta", {'o', 'e'}, 0, 7) == 2;
    assert CountIn("spanish", {'o', 'e'}, 0, 7) == 0;
    FarApart("rosetta", "spanish", {'o', 'e'});
  }

  lemma RosettaGuitar()
    ensures Distance("rosetta", "guitar") >= 2
  {
    assert CountIn("rosetta", {'o', 'e'}, 0, 7) == 2;
    assert CountIn("guitar", {'o', 'e'}, 0, 6) == 0;
    FarApart("rosetta", "guitar", {'o', 'e'});
  }

  lemma StoneBass()
    ensures Distance("stone", "bass") >= 2
  {
    assert CountIn("stone", {'o', 'n'}, 0, 5) == 2;
    assert CountIn("bass", {'o', 'n'}, 0, 4) == 0;
    FarApart("stone", "bass", {'o', 'n'});
  }

  lemma StoneGuitar()
    ensures Distance("stone", "guitar") >= 2
  {
    assert CountIn("stone", {'o', 'n'}, 0, 5) == 2;
    assert CountIn("guitar", {'o', 'n'}, 0, 6) == 0;
    FarApart("stone", "guitar", {'o', 'n'});
  }

  lemma SpannishRosetta()
    ensures Distance("spannish", "rosetta") >= 2
  {
    assert CountIn("spannish", {'p', 'n'}, 0, 8) == 3;
    assert CountIn("rosetta", {'p', 'n'}, 0, 7) == 0;
    FarApart("spannish", "rosetta", {'p', 'n'});
  }

  /** The buckets of the trained lexicon. */
  lemma LexBuckets()
    ensures Bucket(Lex, 3) == {} && Bucket(Lex, 8) == {} && Bucket(Lex, 9) == {}
    ensures Bucket(Lex, 4) == {"bass"} && Bucket(Lex, 5) == {"stone"} && Bucket(Lex, 6) == {"guitar"}
    ensures Bucket(Lex, 7) == {"spanish", "rosetta"}
  {
  }

  // What `Check` gathers for each test word.

  lemma ElectricGathered()
    ensures Gathered(Lex, "electric") == {}
  {
    LexBuckets();
    ElectricSpanish();
    ElectricRosetta();
    SpellExamples.NeighboursOfPair("electric", "spanish", "rosetta");
  }

  lemma BaseGathered()
    ensures Gathered(Lex, "base") == {"bass"}
  {
    LexBuckets();
    BaseBass();
    BaseStone();
    SpellExamples.NeighboursOfOne("base", "bass");
    SpellExamples.NeighboursOfOne("base", "stone");
  }

  lemma GuitarrGathered()
    ensures Gathered(Lex, "guitarr") == {"guitar"}
  {
    LexBuckets();
    GuitarrGuitar();
    GuitarrSpanish();
    GuitarrRosetta();
    SpellExamples.NeighboursOfPair("guitarr", "spanish", "rosetta");
    SpellExamples.NeighboursOfOne("guitarr", "guitar");
  }

  lemma EnglishGathered()
    ensures Gathered(Lex, "english") == {}
  {
    LexBuckets();
    EnglishSpanish();
    EnglishRosetta();
    EnglishGuitar();
    SpellExamples.NeighboursOfPair("english", "spanish", "rosetta");
    SpellExamples.NeighboursOfOne("english", "guitar");
  }

  lemma RosettaGathered()
    ensures Gathered(Lex, "rosetta") == {"rosetta"}
  {
    LexBuckets();
    RosettaSpanish();
    RosettaGuitar();
    DistanceZeroIff("rosetta", "rosetta");
    SpellExamples.NeighboursOfPair("rosetta", "spanish", "rosetta");
    SpellExamples.NeighboursOfOne("rosetta", "guitar");
  }

  lemma StoneGathered()
    ensures Gathered(Lex, "stone") == {"stone"}
  {
    LexBuckets();
    StoneBass();
    StoneGuitar();
    DistanceZeroIff("stone", "stone");
    SpellExamples.NeighboursOfOne("stone", "stone");
    SpellExamples.NeighboursOfOne("stone", "bass");
    SpellExamples.NeighboursOfOne("stone", "guitar");
  }

  lemma SpannishGathered()
    ensures Gathered(Lex, "spannish") == {"spanish"}
  {
    LexBuckets();
    SpannishSpanish();
    SpannishRosetta();
    SpellExamples.NeighboursOfPair("spannish", "spanish", "rosetta");
  }

  /** A list without repetitions has as many elements as entries. */
  lemma {:induction false} DistinctCount(r: seq<Word>)
    requires Distinct(r)
    ensures |Elements(r)| == |r|
    decreases |r|
  {
    if |r| > 0 {
      var init, last := r[..|r| - 1], r[|r| - 1];
      assert init + [last] == r;
      DistinctCount(init);
      ElementsAppend(init, last);
      assert last !in Elements(init);
    }
  }

  /** A word with a single candidate gets exactly that one suggestion. */
  lemma SingleSuggestion(lex: Lexicon, word: Word, r: seq<Word>, u: Word)
    requires Suggests(lex, word, r) && Candidates(lex, word) == {u}
    ensures r == [u]
  {
    DistinctCount(r);
    assert r[0] in Elements(r);
  }

  /** Three words with a single candidate each get exactly those suggestions. */
  lemma ThreeSingles(lex: Lexicon, w0: Word, w1: Word, w2: Word, u0: Word, u1: Word, u2: Word, lists: seq<seq<Word>>)
    requires Candidates(lex, w0) == {u0} && Candidates(lex, w1) == {u1} && Candidates(lex, w2) == {u2}
    requires |lists| == 3
    requires forall i :: 0 <= i < 3 ==> Suggests(lex, [w0, w1, w2][i], lists[i])
    ensures lists == [[u0], [u1], [u2]]
  {
    assert Suggests(lex, w0, lists[0]) && Suggests(lex, w1, lists[1]) && Suggests(lex, w2, lists[2]);
    SingleSuggestion(lex, w0, lists[0], u0);
    SingleSuggestion(lex, w1, lists[1], u1);
    SingleSuggestion(lex, w2, lists[2], u2);
  }

  lemma ElectricCandidates()
    ensures Candidates(Lex, "electric") == {"electric"}
  {
    ElectricGathered();
  }

  lemma BaseCandidates()
    ensures Candidates(Lex, "base") == {"bass"}
  {
    BaseGathered();
  }

  lemma GuitarrCandidates()
    ensures Candidates(Lex, "guitarr") == {"guitar"}
  {
    GuitarrGathered();
  }

  lemma EnglishCandidates()
    ensures Candidates(Lex, "english") == {"english"}
  {
    EnglishGathered();
  }

  lemma RosettaCandidates()
    ensures Candidates(Lex, "rosetta") == {"rosetta"}
  {
    RosettaGathered();
  }

  lemma StoneCandidates()
    ensures Candidates(Lex, "stone") == {"stone"}
  {
    StoneGathered();
  }

  lemma SpannishCandidates()
    ensures Candidates(Lex, "spannish") == {"spanish"}
  {
    SpannishGathered();
  }

  /** The matcher's answers the three test inputs ask for. */
  lemma TestMatches()
    ensures Best(Table, "electric", ["bass"]) == ("bass", false)
    ensures Best(Table, "bass", ["guitar"]) == ("guitar", true)
    ensures Best(Table, "english", ["rosetta"]) == ("rosetta", false)
    ensures Best(Table, "rosetta", ["stone"]) == ("stone", true)
    ensures Best(Table, "spanish", ["rosetta"]) == ("rosetta", true)
  {
    assert FirstIn({"guitar"}, ["guitar"]) == Some(0);
    assert FirstIn({"stone"}, ["stone"]) == Some(0);
    assert FirstIn({"rosetta"}, ["rosetta"]) == Some(0);
  }

  /** Three single suggestions are picked, grouped and joined. */
  lemma ThreePhrases(a: Word, b: Word, c: Word)
    requires Best(Table, a, [b]).0 == b && Best(Table, b, [c]).0 == c
    ensures Picks(Table, [[a], [b], [c]]) == [Pick(a, true), Pick(b, !Best(Table, a, [b]).1), Pick(c, !Best(Table, b, [c]).1)]
  {
    var lists: seq<seq<Word>> := [[a], [b], [c]];
    assert lists[..2] == [[a], [b]] && lists[..2][..1] == [[a]];
    assert Picks(Table, [[a]]) == [Pick(a, true)];
    assert Picks(Table, [[a], [b]]) == [Pick(a, true), Pick(b, !Best(Table, a, [b]).1)];
  }

  /** A match after an opening pick: the second phrase holds the last two words. */
  lemma GroupOpenJoin(a: Word, b: Word, c: Word)
    ensures Group([Pick(a, true), Pick(b, true), Pick(c, false)]) == [[a], [b, c]]
  {
    var p1, p2, p3 := Pick(a, true), Pick(b, true), Pick(c, false);
    assert [] + [p1] == [p1] && [p1] + [p2] == [p1, p2] && [p1, p2] + [p3] == [p1, p2, p3];
    GroupSnoc([], p1);
    assert Group([p1]) == [[a]];
    GroupSnoc([p1], p2);
    assert Group([p1, p2]) == [[a], [b]];
    GroupSnoc([p1, p2], p3);
    assert [b] + [c] == [b, c] && [[a], [b]][..1] == [[a]];
    assert [[a]] + [[b, c]] == [[a], [b, c]];
  }

  /** Two matches in a row: a single phrase. */
  lemma GroupJoinJoin(a: Word, b: Word, c: Word)
    ensures Group([Pick(a, true), Pick(b, false), Pick(c, false)]) == [[a, b, c]]
  {
    var p1, p2, p3 := Pick(a, true), Pick(b, false), Pick(c, false);
    assert [] + [p1] == [p1] && [p1] + [p2] == [p1, p2] && [p1, p2] + [p3] == [p1, p2, p3];
    GroupSnoc([], p1);
    assert Group([p1]) == [[a]];
    GroupSnoc([p1], p2);
    assert [a] + [b] == [a, b] && [[a]][..0] == [];
    assert [] + [[a, b]] == [[a, b]];
    assert Group([p1, p2]) == [[a, b]];
    GroupSnoc([p1, p2], p3);
    assert [a, b] + [c] == [a, b, c] && [[a, b]][..0] == [];
    assert [] + [[a, b, c]] == [[a, b, c]];
  }

  lemma ElectricTokens()
    ensures Tokens("electric base guitarr") == ["electric", "base", "guitarr"]
  {
    ReadJoined(["electric", "base", "guitarr"], "electric base guitarr");
  }

  lemma EnglishTokens()
    ensures Tokens("english rosetta stone") == ["english", "rosetta", "stone"]
  {
    ReadJoined(["english", "rosetta", "stone"], "english rosetta stone");
  }

  lemma SpannishTokens()
    ensures Tokens("spannish rosetta stone") == ["spannish", "rosetta", "stone"]
  {
    ReadJoined(["spannish", "rosetta", "stone"], "spannish rosetta stone");
  }

  /** processor_test.go:26: "electric base guitarr" gives "electric" and "bass guitar". */
  lemma ElectricBaseGuitarr(lists: seq<seq<Word>>)
    requires |lists| == 3
    requires forall i :: 0 <= i < 3 ==> Suggests(Lex, ["electric", "base", "guitarr"][i], lists[i])
    ensures NonEmpty(lists) && Phrases(Table, lists) == ["electric", "bass guitar"]
  {
    ElectricBaseGuitarrLists(lists);
    ElectricBaseGuitarrPhrases();
  }

  lemma ElectricBaseGuitarrLists(lists: seq<seq<Word>>)
    requires |lists| == 3
    requires forall i :: 0 <= i < 3 ==> Suggests(Lex, ["electric", "base", "guitarr"][i], lists[i])
    ensures lists == [["electric"], ["bass"], ["guitar"]]
  {
    ElectricCandidates();
    BaseCandidates();
    GuitarrCandidates();
    ThreeSingles(Lex, "electric", "base", "guitarr", "electric", "bass", "guitar", lists);
  }

  lemma ElectricBaseGuitarrPhrases()
    ensures Phrases(Table, [["electric"], ["bass"], ["guitar"]]) == ["electric", "bass guitar"]
  {
    TestMatches();
    ThreePhrases("electric", "bass", "guitar");
    GroupOpenJoin("electric", "bass", "guitar");
    assert Join(["bass", "guitar"]) == "bass guitar";
  }

  /** processor_test.go:27: "english rosetta stone" gives "english" and "rosetta stone". */
  lemma EnglishRosettaStone(lists: seq<seq<Word>>)
    requires |lists| == 3
    requires forall i :: 0 <= i < 3 ==> Suggests(Lex, ["english", "rosetta", "stone"][i], lists[i])
    ensures NonEmpty(lists) && Phrases(Table, lists) == ["english", "rosetta stone"]
  {
    EnglishRosettaStoneLists(lists);
    EnglishRosettaStonePhrases();
  }

  lemma EnglishRosettaStoneLists(lists: seq<seq<Word>>)
    requires |lists| == 3
    requires forall i :: 0 <= i < 3 ==> Suggests(Lex, ["english", "rosetta", "stone"][i], lists[i])
    ensures lists == [["english"], ["rosetta"], ["stone"]]
  {
    EnglishCandidates();
    RosettaCandidates();
    StoneCandidates();
    ThreeSingles(Lex, "english", "rosetta", "stone", "english", "rosetta", "stone", lists);
  }

  lemma EnglishRosettaStonePhrases()
    ensures Phrases(Table, [["english"], ["rosetta"], ["stone"]]) == ["english", "rosetta stone"]
  {
    TestMatches();
    ThreePhrases("english", "rosetta", "stone");
    GroupOpenJoin("english", "rosetta", "stone");
    assert Join(["rosetta", "stone"]) == "rosetta stone";
  }

  /** processor_test.go:28: "spannish rosetta stone" gives the one phrase "spanish rosetta stone". */
  lemma SpannishRosettaStone(lists: seq<seq<Word>>)
    requires |lists| == 3
    requires forall i :: 0 <= i < 3 ==> Suggests(Lex, ["spannish", "rosetta", "stone"][i], lists[i])
    ensures NonEmpty(lists) && Phrases(Table, lists) == ["spanish rosetta stone"]
  {
    SpannishRosettaStoneLists(lists);
    SpannishRosettaStonePhrases();
  }

  lemma SpannishRosettaStoneLists(lists: seq<seq<Word>>)
    requires |lists| == 3
    requires forall i :: 0 <= i < 3 ==> Suggests(Lex, ["spannish", "rosetta", "stone"][i], lists[i])
    ensures lists == [["spanish"], ["rosetta"], ["stone"]]
  {
    SpannishCandidates();
    RosettaCandidates();
    StoneCandidates();
    ThreeSingles(Lex, "spannish", "rosetta", "stone", "spanish", "rosetta", "stone", lists);
  }

  lemma SpannishRosettaStonePhrases()
    ensures Phrases(Table, [["spanish"], ["rosetta"], ["stone"]]) == ["spanish rosetta stone"]
  {
    TestMatches();
    ThreePhrases("spanish", "rosetta", "stone");
    GroupJoinJoin("spanish", "rosetta", "stone");
    assert Join(["spanish", "rosetta", "stone"]) == "spanish rosetta stone";
  }

  /** TestProcessor (processor_test.go:14-35) run through the processor's own contracts. */
  method TestProcessor() returns (first: seq<seq<char>>, second: seq<seq<char>>, third: seq<seq<char>>)
    ensures first == ["electric", "bass guitar"]
    ensures second == ["english", "rosetta stone"]
    ensures third == ["spanish rosetta stone"]
  {
    var processor := new Processor();
    processor.Train(Training);
    TrainedLexicon();
    TrainedTable();
    ghost var lists;
    first, lists := processor.Process("electric base guitarr");
    ElectricTokens();
    ElectricBaseGuitarr(lists);
    second, lists := processor.Process("english rosetta stone");
    EnglishTokens();
    EnglishRosettaStone(lists);
    third, lists := processor.Process("spannish rosetta stone");
    SpannishTokens();
    SpannishRosettaStone(lists);
  }
}
