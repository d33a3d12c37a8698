/**
 * The default semantic matcher (semantic.go): for each context word, the
 * set of words seen right after it. `Match` picks, from a list of spelling
 * suggestions, the first one ever seen after the context.
 *
 * The table is `None` while the Go map is nil, as the lexicon of the spell
 * checker is.
 */
module Semantic {
  import opened Wrappers
  import opened Words
  import opened Spell

  /** The `contexts` field: `None` while the Go map is nil, otherwise context word to followers. */
  type Contexts = Option<map<Word, WordList>>

  /** The words seen after `context`; empty when the table is nil or has no entry. */
  function Followers(contexts: Contexts, context: Word): WordList
  {
    if contexts.Some? && context in contexts.value then contexts.value[context] else {}
  }

  /**
   * The table after `Train(context, word)` (semantic.go:27-37): the map is
   * made if nil, the context's set is made if absent, and `word` joins it.
   */
  function Learn(contexts: Contexts, context: Word, word: Word): (r: Contexts)
    ensures r.Some? && context in r.value
    ensures forall c :: c in r.value <==> c == context || (contexts.Some? && c in contexts.value)
    ensures forall c :: Followers(r, c) == if c == context then Followers(contexts, c) + {word} else Followers(contexts, c)
  {
    var m := if contexts.None? then map[] else contexts.value;
    Some(m[context := Add(if context in m then m[context] else {}, word)])
  }

  /** Learning the same pair twice is learning it once. */
  lemma LearnIdempotent(contexts: Contexts, context: Word, word: Word)
    ensures Learn(Learn(contexts, context, word), context, word) == Learn(contexts, context, word)
  {
    var once := Learn(contexts, context, word);
    var twice := Learn(once, context, word);
    assert once.value[context] + {word} == once.value[context];
    assert twice.value == once.value;
  }

  /**
   * The index of the first of `suggestions` that `list` holds, if any: the
   * scan of semantic.go:16-20.
   */
  function FirstIn(list: WordList, suggestions: seq<Word>): (r: Option<nat>)
    ensures r.None? <==> forall i :: 0 <= i < |suggestions| ==> suggestions[i] !in list
    ensures r.Some? ==> r.value < |suggestions| && suggestions[r.value] in list
    ensures r.Some? ==> forall i :: 0 <= i < r.value ==> suggestions[i] !in list
  {
    if |suggestions| == 0 then None
    else if suggestions[0] in list then Some(0)
    else match FirstIn(list, suggestions[1..]) {
      case None => None
      case Some(i) => Some(i + 1)
    }
  }

  /**
   * What `Match(context, suggestions)` returns (semantic.go:10-24): the first
   * suggestion seen after `context`, paired with `true`, or else the first
   * suggestion, paired with `false`.
   */
  function Best(contexts: Contexts, context: Word, suggestions: seq<Word>): (Word, bool)
    requires |suggestions| > 0
  {
    if contexts.None? || context !in contexts.value then (suggestions[0], false)
    else match FirstIn(contexts.value[context], suggestions) {
      case None => (suggestions[0], false)
      case Some(i) => (suggestions[i], true)
    }
  }

  /**
   * The matcher reports a match exactly when some suggestion followed the
   * context before; the word it returns is one of the suggestions, and it is
   * the first one that followed the context when there is a match, the first
   * suggestion otherwise.
   */
  lemma BestIsFirstFollower(contexts: Contexts, context: Word, suggestions: seq<Word>)
    requires |suggestions| > 0
    ensures Best(contexts, context, suggestions).1
        <==> exists i :: 0 <= i < |suggestions| && suggestions[i] in Followers(contexts, context)
    ensures Best(contexts, context, suggestions).0 in suggestions
    ensures Best(contexts, context, suggestions).1 ==>
              exists i :: 0 <= i < |suggestions| && Best(contexts, context, suggestions).0 == suggestions[i]
                && suggestions[i] in Followers(contexts, context)
                && forall j :: 0 <= j < i ==> suggestions[j] !in Followers(contexts, context)
    ensures !Best(contexts, context, suggestions).1 ==> Best(contexts, context, suggestions).0 == suggestions[0]
  {
    if contexts.Some? && context in contexts.value {
      var r := FirstIn(contexts.value[context], suggestions);
      if r.Some? {
        assert suggestions[r.value] in Followers(contexts, context);
      }
    }
  }

  /** `DefaultSemanticMatcher`. */
  class SemanticMatcher {
    var contexts: Contexts

    /** The zero value: a nil table. */
    constructor ()
      ensures contexts == None
    {
      contexts := None;
    }

    /** `Match` (semantic.go:10-24); it only reads the table. */
    method Match(context: Word, suggestions: seq<Word>) returns (best: Word, matched: bool)
      requires |suggestions| > 0
      ensures (best, matched) == Best(contexts, context, suggestions)
    {
      if contexts.None? {
        return suggestions[0], false;
      }
      if context in contexts.value {
        var list := contexts.value[context];
        for i := 0 to |suggestions|
          invariant forall j :: 0 <= j < i ==> suggestions[j] !in list
        {
          if Has(list, suggestions[i]) {
            return suggestions[i], true;
          }
        }
      }
      return suggestions[0], false;
    }

    /** `Train` (semantic.go:27-37). */
    method Train(context: Word, word: Word)
      modifies this
      ensures contexts == Learn(old(contexts), context, word)
    {
      if contexts.None? {
        contexts := Some(map[]);
      }
      var m := contexts.value;
      ghost var before := m;
      if context !in m {
        m := m[context := {}];
      }
      assert m[context := Add(m[context], word)]
          == before[context := Add(if context in before then before[context] else {}, word)];
      contexts := Some(m[context := Add(m[context], word)]);
    }
  }

  /** semantic_test.go:13, 21-22: after learning "quality" after "best", only the context "best" matches. */
  lemma MatchExamples()
    ensures Best(Learn(None, "best", "quality"), "best", ["quantity", "quality"]) == ("quality", true)
    ensures Best(Learn(None, "best", "quality"), "worst", ["quantity", "quality"]) == ("quantity", false)
  {
    var t := Learn(None, "best", "quality");
    assert Followers(t, "best") == {"quality"};
    assert "worst" !in t.value;
    var s: seq<Word> := ["quantity", "quality"];
    assert s[0] !in Followers(t, "best") && s[1] in Followers(t, "best");
    assert FirstIn({"quality"}, s) == Some(1);
  }
}
