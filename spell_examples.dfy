/**
 * The outcomes spell_test.go expects, derived from the model: a checker
 * trained on "quality", "quantity" and "quantify" corrects "quantity" to
 * itself and "quantify", "quanlity" to "quality" and "quantity", and leaves
 * "unknown" alone. Each suggestion set is stated order-free, as the test
 * compares it.
 */
module SpellExamples {
  import opened Wrappers
  import opened Words
  import opened Algo
  import opened Spell

  /** The lexicon that spell_test.go trains. */
  const Trained: Lexicon := Some(map[7 := {"quality"}, 8 := {"quantity", "quantify"}])

  /** The lexicon after `Train(["quality", "quantity", "quantify"])` on a zero checker. */
  lemma TrainedLexicon()
    ensures AddWords(None, ["quality", "quantity", "quantify"]) == Trained
  {
    var ws: seq<Word> := ["quality", "quantity", "quantify"];
    var l1 := Some(map[7 := {"quality"}]);
    var l2 := Some(map[7 := {"quality"}, 8 := {"quantity"}]);
    assert |ws[0]| == 7 && |ws[1]| == 8 && |ws[2]| == 8;
    assert Add({}, ws[0]) == {"quality"};
    assert Add({}, ws[1]) == {"quantity"};
    assert Add({"quantity"}, ws[2]) == {"quantity", "quantify"};
    assert AddWord(None, ws[0]) == l1;
    assert AddWord(l1, ws[1]) == l2;
    assert l2.value[8 := {"quantity", "quantify"}] == Trained.value;
    assert AddWord(l2, ws[2]) == Trained;
    assert ws[..1][..0] == [] && ws[..2][..1] == ws[..1] && ws[..2] == ws[..3][..2];
    assert AddWords(None, ws[..1]) == l1;
    assert AddWords(None, ws[..2]) == l2;
    assert ws[..3] == ws;
  }

  lemma QuantityQuantify()
    ensures Distance("quantity", "quantify") == 1
  {
    DistanceOneEdit("quanti", 't', 'f', "y");
    assert "quanti" + ['t'] + "y" == "quantity" && "quanti" + ['f'] + "y" == "quantify";
    DistanceZeroIff("quantity", "quantify");
  }

  lemma QuantityQuality()
    ensures Distance("quantity", "quality") >= 2
  {
    var c := {'n', 't'};
    assert CountIn("quantity", c, 0, 8) == 3;
    assert CountIn("quality", c, 0, 7) == 1;
    DistanceCountGap("quantity", "quality", c);
  }

  lemma QuanlityQuantity()
    ensures Distance("quanlity", "quantity") == 1
  {
    DistanceOneEdit("quan", 'l', 't', "ity");
    assert "quan" + ['l'] + "ity" == "quanlity" && "quan" + ['t'] + "ity" == "quantity";
    DistanceZeroIff("quanlity", "quantity");
  }

  lemma QuanlityQuality()
    ensures Distance("quanlity", "quality") == 1
  {
    DistanceOneEdit("qua", 'n', 'n', "lity");
    assert "qua" + ['n'] + "lity" == "quanlity" && "qua" + "lity" == "quality";
    DistanceZeroIff("quanlity", "quality");
  }

  lemma QuanlityQuantify()
    ensures Distance("quanlity", "quantify") >= 2
  {
    var c := {'q', 'l'};
    assert Mismatches("quanlity", 0, "quantify", 0, 8) == 2;
    assert CountIn("quanlity", c, 0, 8) == 2;
    assert CountIn("quantify", c, 1, 8) == 0;
    DistanceAtLeastTwo("quanlity", "quantify", c);
  }

  lemma UnknownQuality()
    ensures Distance("unknown", "quality") >= 2
  {
    var c := {'k', 'w', 'o'};
    assert CountIn("unknown", c, 0, 7) == 3;
    assert CountIn("quality", c, 0, 7) == 0;
    DistanceCountGap("unknown", "quality", c);
  }

  lemma UnknownQuantity()
    ensures Distance("unknown", "quantity") >= 2
  {
    var c := {'k', 'w', 'o'};
    assert CountIn("unknown", c, 0, 7) == 3;
    assert CountIn("quantity", c, 0, 8) == 0;
    DistanceCountGap("unknown", "quantity", c);
  }

  lemma UnknownQuantify()
    ensures Distance("unknown", "quantify") >= 2
  {
    var c := {'k', 'w', 'o'};
    assert CountIn("unknown", c, 0, 7) == 3;
    assert CountIn("quantify", c, 0, 8) == 0;
    DistanceCountGap("unknown", "quantify", c);
  }

  /** The buckets of the trained lexicon around lengths 7 and 8. */
  lemma TrainedBuckets()
    ensures Bucket(Trained, 6) == {} && Bucket(Trained, 9) == {}
    ensures Bucket(Trained, 7) == {"quality"}
    ensures Bucket(Trained, 8) == {"quantity", "quantify"}
  {
  }

  /** The neighbours among two words are those of the two at distance 1. */
  lemma NeighboursOfPair(word: Word, a: Word, b: Word)
    ensures Neighbours(word, {a, b})
         == (if Distance(word, a) == 1 then {a} else {}) + (if Distance(word, b) == 1 then {b} else {})
  {
  }

  lemma NeighboursOfOne(word: Word, a: Word)
    ensures Neighbours(word, {a}) == if Distance(word, a) == 1 then {a} else {}
  {
  }

  /** Once the scans find something, that is the answer. */
  lemma CandidatesAreGathered(lex: Lexicon, word: Word)
    requires lex.Some? && |word| >= MinLength && Gathered(lex, word) != {}
    ensures Candidates(lex, word) == Gathered(lex, word)
  {
  }

  lemma QuantityOwnScan()
    ensures OwnScan(Trained, "quantity") == {"quantity", "quantify"}
  {
    TrainedBuckets();
    QuantityQuantify();
    DistanceZeroIff("quantity", "quantity");
    NeighboursOfPair("quantity", "quantity", "quantify");
  }

  lemma QuantityShorterScan()
    ensures ShorterScan(Trained, "quantity") == {}
  {
    TrainedBuckets();
    QuantityQuality();
    NeighboursOfOne("quantity", "quality");
  }

  lemma QuantityGathered()
    ensures Gathered(Trained, "quantity") == {"quantity", "quantify"}
  {
    TrainedBuckets();
    QuantityOwnScan();
    QuantityShorterScan();
  }

  /** spell_test.go:19: the word itself first, then "quantify". */
  lemma CheckQuantity()
    ensures Exact(Trained, "quantity")
    ensures Candidates(Trained, "quantity") == {"quantity", "quantify"}
  {
    TrainedBuckets();
    QuantityGathered();
    CandidatesAreGathered(Trained, "quantity");
  }

  lemma QuanlityOwnScan()
    ensures OwnScan(Trained, "quanlity") == {"quantity"}
  {
    TrainedBuckets();
    QuanlityQuantity();
    QuanlityQuantify();
    NeighboursOfPair("quanlity", "quantity", "quantify");
  }

  lemma QuanlityShorterScan()
    ensures ShorterScan(Trained, "quanlity") == {"quality"}
  {
    TrainedBuckets();
    QuanlityQuality();
    NeighboursOfOne("quanlity", "quality");
  }

  lemma QuanlityGathered()
    ensures Gathered(Trained, "quanlity") == {"quality", "quantity"}
  {
    TrainedBuckets();
    QuanlityOwnScan();
    QuanlityShorterScan();
  }

  /** spell_test.go:20: "quality" and "quantity", in either order. */
  lemma CheckQuanlity()
    ensures !Exact(Trained, "quanlity")
    ensures Candidates(Trained, "quanlity") == {"quality", "quantity"}
  {
    TrainedBuckets();
    QuanlityGathered();
    CandidatesAreGathered(Trained, "quanlity");
  }

  lemma UnknownOwnScan()
    ensures OwnScan(Trained, "unknown") == {}
  {
    TrainedBuckets();
    UnknownQuality();
    NeighboursOfOne("unknown", "quality");
  }

  lemma UnknownLongerScan()
    ensures LongerScan(Trained, "unknown") == {}
  {
    TrainedBuckets();
    UnknownQuantity();
    UnknownQuantify();
    NeighboursOfPair("unknown", "quantity", "quantify");
  }

  lemma UnknownGathered()
    ensures Gathered(Trained, "unknown") == {}
  {
    TrainedBuckets();
    UnknownOwnScan();
    UnknownLongerScan();
  }

  /** spell_test.go:21: nothing is near, so the word comes back alone. */
  lemma CheckUnknown()
    ensures Candidates(Trained, "unknown") == {"unknown"}
  {
    UnknownGathered();
  }
}
