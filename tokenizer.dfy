/**
 * The tokeniser of processor.go (`readWords`, processor.go:122-195): a
 * four-state lexer over already-decoded runes that cuts the input into
 * words of English letters, of Arabic or Farsi letters (tashkil inside such
 * a word is dropped) and of digits, writing each rune through `normalize`
 * and dropping every rune that starts no word.
 *
 * `Tokens` states the result by runs: a word is the longest run, starting
 * at a rune that opens a word, of runes that continue it. `ReadWords` is
 * the state machine, proved to compute `Tokens`.
 */
module Tokenizer {
  import opened Words
  import opened CharMap

  /** The lexer states (processor.go:126-131). */
  datatype State = Start | English | Farsi | Number

  /** The kind of word rune `c` opens from the Start state; `Start` when the rune is dropped. */
  function Opens(c: char): State
  {
    if IsEnglishLetter(c) then English
    else if IsArabicOrFarsiLetter(c) then Farsi
    else if IsDigit(c) then Number
    else Start
  }

  /** Whether `c` keeps a word of kind `st` going; a Farsi word also absorbs tashkil. */
  predicate Continues(st: State, c: char)
  {
    match st
    case Start => false
    case English => IsEnglishLetter(c)
    case Farsi => IsArabicOrFarsiLetter(c) || IsTashkil(c)
    case Number => IsDigit(c)
  }

  /** The length of the longest prefix of `s` whose runes all continue a word of kind `st`. */
  function Run(s: seq<char>, st: State): (n: nat)
    ensures n <= |s|
    ensures forall i :: 0 <= i < n ==> Continues(st, s[i])
    ensures n < |s| ==> !Continues(st, s[n])
  {
    if |s| > 0 && Continues(st, s[0]) then 1 + Run(s[1..], st) else 0
  }

  /** What the string builder holds after a run: each rune normalised, tashkil left out. */
  function Kept(s: seq<char>): Word
  {
    if |s| == 0 then []
    else Kept(s[..|s| - 1]) + (if IsTashkil(s[|s| - 1]) then [] else [Normalize(s[|s| - 1])])
  }

  /** The words of `s`, in order. */
  function Tokens(s: seq<char>): seq<Word>
    decreases |s|
  {
    if |s| == 0 then []
    else if Opens(s[0]) == Start then Tokens(s[1..])
    else
      var n := Run(s, Opens(s[0]));
      [Kept(s[..n])] + Tokens(s[n..])
  }

  /**
   * `readWords` (processor.go:122-195) on an already-decoded input. Reading
   * a rune advances `pos`; `UnreadRune` is not advancing it, so the rune
   * that ends a word is examined again from the Start state.
   */
  method ReadWords(input: seq<char>) returns (words: seq<Word>)
    ensures words == Tokens(input)
  {
    words := [];
    var state := Start;
    var sb: Word := [];
    var pos := 0;
    ghost var begin := 0;
    assert input[0..] == input;
    while pos < |input|
      // Compared with `true` so that the invariant is checked as one fact
      // carried over from `ReadRune`, not split into its conjuncts.
      invariant Reading(input, words, state, sb, pos, begin) == true
      decreases |input| - pos, if state == Start then 0 else 1
    {
      words, state, sb, pos, begin := ReadRune(input, words, state, sb, pos, begin);
    }
    ReadingDone(input, words, state, sb, pos, begin);
    if |sb| > 0 {
      words := words + [sb];
    }
  }

  /** One turn of the loop of processor.go:135-187: the rune at `pos` in the current state. */
  method ReadRune(input: seq<char>, words: seq<Word>, state: State, sb: Word, pos: nat, ghost begin: nat)
    returns (words': seq<Word>, state': State, sb': Word, pos': nat, ghost begin': nat)
    requires pos < |input| && Reading(input, words, state, sb, pos, begin)
    ensures Reading(input, words', state', sb', pos', begin')
    ensures pos' == pos + 1 || (pos' == pos && state != Start && state' == Start)
  {
    if state == Start {
      words' := words;
      state', sb', pos', begin' := ReadInStart(input, words, pos);
    } else {
      begin' := begin;
      words', state', sb', pos' := ReadInWord(input, words, state, sb, pos, begin);
    }
  }

  /** At the end of the input the word being read, if any, is the last one. */
  lemma ReadingDone(input: seq<char>, words: seq<Word>, state: State, sb: Word, pos: nat, begin: nat)
    requires pos == |input| && Reading(input, words, state, sb, pos, begin)
    ensures Tokens(input) == if |sb| > 0 then words + [sb] else words
  {
    if state != Start {
      WordEnds(input, begin, pos, state);
    }
  }

  /**
   * The loop invariant of `readWords`: the words emitted so far followed by
   * the words of the unread input make up all the words. Inside a word,
   * `input[begin..pos]` is its read part and `sb` holds what it keeps.
   */
  ghost predicate Reading(input: seq<char>, words: seq<Word>, state: State, sb: Word, pos: nat, begin: nat)
  {
    && begin <= pos <= |input|
    && (state == Start ==> sb == [] && Tokens(input) == words + Tokens(input[pos..]))
    && (state != Start ==>
          && InWord(input, begin, pos, state) && sb == Kept(input[begin..pos]) && |sb| > 0
          && Tokens(input) == words + Tokens(input[begin..]))
  }

  /** The Start state on the rune at `pos` (processor.go:144-157). */
  method ReadInStart(input: seq<char>, words: seq<Word>, pos: nat)
    returns (state: State, sb: Word, pos': nat, ghost begin: nat)
    requires pos < |input| && Tokens(input) == words + Tokens(input[pos..])
    ensures Reading(input, words, state, sb, pos', begin) && pos' == pos + 1
  {
    var ch := input[pos];
    if IsEnglishLetter(ch) {
      sb := [Normalize(ch)];
      state := English;
    } else if IsArabicOrFarsiLetter(ch) {
      sb := [Normalize(ch)];
      state := Farsi;
    } else if IsDigit(ch) {
      sb := [Normalize(ch)];
      state := Number;
    } else {
      // Drop unknown runes.
      sb := [];
      state := Start;
    }
    pos', begin := pos + 1, pos;
    StartStep(input, pos, state);
  }

  /**
   * The English, Farsi and Number states on the rune at `pos`
   * (processor.go:158-186): a rune of the word's kind is written (a tashkil
   * in a Farsi word only skipped), any other rune ends the word and is left
   * unread.
   */
  method ReadInWord(input: seq<char>, words: seq<Word>, state: State, sb: Word, pos: nat, ghost begin: nat)
    returns (words': seq<Word>, state': State, sb': Word, pos': nat)
    requires pos < |input| && state != Start && Reading(input, words, state, sb, pos, begin)
    ensures Reading(input, words', state', sb', pos', begin)
    ensures (pos' == pos + 1 && state' == state) || (pos' == pos && state' == Start)
  {
    var ch := input[pos];
    var keep := match state
      case English => IsEnglishLetter(ch)
      case Farsi => IsArabicOrFarsiLetter(ch)
      case _ => IsDigit(ch);
    if keep {
      ClassesExclusive(ch);
      ReadingAdvances(input, words, state, sb, pos, begin);
      words', state', sb', pos' := words, state, sb + [Normalize(ch)], pos + 1;
    } else if state == Farsi && IsTashkil(ch) {
      // Drop tashkils from words.
      ReadingAdvances(input, words, state, sb, pos, begin);
      words', state', sb', pos' := words, state, sb, pos + 1;
    } else {
      ReadingEndsWord(input, words, state, sb, pos, begin);
      words', state', sb', pos' := words + [sb], Start, [], pos;
    }
  }

  /** A rune that continues the word is read: it is kept unless it is a tashkil. */
  lemma ReadingAdvances(input: seq<char>, words: seq<Word>, state: State, sb: Word, pos: nat, begin: nat)
    requires pos < |input| && state != Start && Reading(input, words, state, sb, pos, begin)
    requires Continues(state, input[pos])
    ensures Reading(input, words, state, sb + (if IsTashkil(input[pos]) then [] else [Normalize(input[pos])]), pos + 1, begin)
  {
    KeptStep(input, begin, pos);
  }

  /** A rune that does not continue the word ends it and stays unread. */
  lemma ReadingEndsWord(input: seq<char>, words: seq<Word>, state: State, sb: Word, pos: nat, begin: nat)
    requires pos < |input| && state != Start && Reading(input, words, state, sb, pos, begin)
    requires !Continues(state, input[pos])
    ensures Reading(input, words + [sb], Start, [], pos, begin)
  {
    WordEnds(input, begin, pos, state);
  }

  /** `input[begin..pos]` is the read part of a word of kind `st`: opened at `begin`, continued since. */
  ghost predicate InWord(input: seq<char>, begin: nat, pos: nat, st: State)
  {
    begin < pos <= |input| && st != Start && Opens(input[begin]) == st
      && forall i :: begin <= i < pos ==> Continues(st, input[i])
  }

  /** The Start state on rune `input[pos]`: it either opens a word or is dropped. */
  lemma StartStep(input: seq<char>, pos: nat, st: State)
    requires pos < |input| && st == Opens(input[pos])
    ensures st == Start ==> Tokens(input[pos..]) == Tokens(input[pos + 1..])
    ensures st != Start ==> InWord(input, pos, pos + 1, st)
    ensures st != Start ==> Kept(input[pos..pos + 1]) == [Normalize(input[pos])]
  {
    assert input[pos + 1..] == input[pos..][1..];
    if st != Start {
      ClassesExclusive(input[pos]);
      assert input[pos..pos + 1][..0] == [];
    }
  }

  /** One more rune of the word is read. */
  lemma KeptStep(input: seq<char>, begin: nat, pos: nat)
    requires begin <= pos < |input|
    ensures Kept(input[begin..pos + 1])
         == Kept(input[begin..pos]) + (if IsTashkil(input[pos]) then [] else [Normalize(input[pos])])
  {
    assert input[begin..pos + 1][..pos - begin] == input[begin..pos];
  }

  /** The word read so far is complete when the input ends or the next rune does not continue it. */
  lemma WordEnds(input: seq<char>, begin: nat, pos: nat, st: State)
    requires InWord(input, begin, pos, st)
    requires pos == |input| || !Continues(st, input[pos])
    ensures Tokens(input[begin..]) == [Kept(input[begin..pos])] + Tokens(input[pos..])
  {
    var s := input[begin..];
    RunExact(s, st, pos - begin);
    assert s[..pos - begin] == input[begin..pos];
    assert s[pos - begin..] == input[pos..];
  }

  /** `Run` is the first position that does not continue the word. */
  lemma {:induction false} RunExact(s: seq<char>, st: State, k: nat)
    requires k <= |s| && forall i :: 0 <= i < k ==> Continues(st, s[i])
    requires k == |s| || !Continues(st, s[k])
    ensures Run(s, st) == k
  {
    if k > 0 {
      RunExact(s[1..], st, k - 1);
    }
  }

  /** A word opened by a rune of its kind keeps at least that rune. */
  lemma KeptNonEmpty(s: seq<char>, st: State)
    requires |s| > 0 && st != Start && Opens(s[0]) == st
    ensures |Kept(s)| > 0
  {
    KeptAppend(s[..1], s[1..]);
    assert s[..1] + s[1..] == s;
    ClassesExclusive(s[0]);
    assert s[..1][..0] == [];
  }

  /** `Kept` works rune by rune. */
  lemma {:induction false} KeptAppend(a: seq<char>, b: seq<char>)
    ensures Kept(a + b) == Kept(a) + Kept(b)
    decreases |b|
  {
    if |b| == 0 {
      assert a + b == a;
    } else {
      var b' := b[..|b| - 1];
      KeptAppend(a, b');
      assert (a + b)[..|a + b| - 1] == a + b';
    }
  }

  // ---------------------------------------------------------------------
  // What the tokeniser promises
  // ---------------------------------------------------------------------

  /** Rune `c` belongs to words of kind `st`. */
  predicate OfKind(st: State, c: char)
  {
    match st
    case Start => false
    case English => IsEnglishLetter(c)
    case Farsi => IsArabicOrFarsiLetter(c)
    case Number => IsDigit(c)
  }

  /** A word as the tokeniser emits it: not empty, every rune of one kind and already normalised. */
  predicate IsToken(w: Word)
  {
    && |w| > 0
    && (AllOfKind(w, English) || AllOfKind(w, Farsi) || AllOfKind(w, Number))
    && forall i :: 0 <= i < |w| ==> Normalize(w[i]) == w[i]
  }

  predicate AllOfKind(w: Word, st: State)
  {
    forall i :: 0 <= i < |w| ==> OfKind(st, w[i])
  }

  /** The runes of `w`, kept or not, all continue a word of kind `st` opened by its first rune. */
  ghost predicate WordRun(w: seq<char>, st: State)
  {
    |w| > 0 && st != Start && Opens(w[0]) == st && forall i :: 0 <= i < |w| ==> Continues(st, w[i])
  }

  /**
   * A word ends at the first rune that does not continue it, and that rune
   * is examined afresh (processor.go:161-165, 173-176, 182-185): the words of
   * `w + s` are the word `w` keeps followed by the words of `s`.
   */
  lemma WordBoundary(w: seq<char>, s: seq<char>, st: State)
    requires WordRun(w, st)
    requires |s| == 0 || !Continues(st, s[0])
    ensures Tokens(w + s) == [Kept(w)] + Tokens(s)
  {
    var ws := w + s;
    RunExact(ws, st, |w|);
    assert ws[..|w|] == w && ws[|w|..] == s;
  }

  /** A rune that opens no word is dropped in the Start state (processor.go:155-156). */
  lemma DroppedInStart(c: char, s: seq<char>)
    requires Opens(c) == Start
    ensures Tokens([c] + s) == Tokens(s)
  {
    assert ([c] + s)[1..] == s;
  }

  /**
   * A rune the table does not list ends whatever word it meets and is then
   * dropped (processor.go:155-156, 161-165, 173-176, 182-185): the words on
   * either side of it are read separately.
   */
  lemma {:induction false} TokensAroundBreak(a: seq<char>, c: char, b: seq<char>)
    requires Lookup(c).None?
    ensures Tokens(a + [c] + b) == Tokens(a) + Tokens(b)
    decreases |a|
  {
    if |a| == 0 {
      BreakDropped(a, c, b);
    } else if Opens(a[0]) == Start {
      TokensAroundBreak(a[1..], c, b);
      SkipThenBreak(a, c, b);
    } else {
      var n := WordLength(a);
      TokensAroundBreak(a[n..], c, b);
      WordThenBreak(a, c, b, n);
    }
  }

  /** With nothing before it, an unlisted rune is dropped. */
  lemma BreakDropped(a: seq<char>, c: char, b: seq<char>)
    requires |a| == 0 && Lookup(c).None?
    ensures Tokens(a + [c] + b) == Tokens(a) + Tokens(b)
  {
    UnlistedRunePassesThrough(c);
    assert a + [c] + b == [c] + b;
    DroppedInStart(c, b);
  }

  /** A rune that opens no word is dropped before an unlisted rune as it is anywhere. */
  lemma SkipThenBreak(a: seq<char>, c: char, b: seq<char>)
    requires |a| > 0 && Opens(a[0]) == Start
    requires Tokens(a[1..] + [c] + b) == Tokens(a[1..]) + Tokens(b)
    ensures Tokens(a + [c] + b) == Tokens(a) + Tokens(b)
  {
    BreakSlices(a, c, b, 1);
    TokensSkip(a + [c] + b);
    TokensSkip(a);
  }

  /** The length of the word that opens `a`. */
  lemma WordLength(a: seq<char>) returns (n: nat)
    requires |a| > 0 && Opens(a[0]) != Start
    ensures 0 < n <= |a| && n == Run(a, Opens(a[0]))
  {
    ClassesExclusive(a[0]);
    n := Run(a, Opens(a[0]));
  }

  /** A word read before an unlisted rune ends at or before that rune. */
  lemma WordThenBreak(a: seq<char>, c: char, b: seq<char>, n: nat)
    requires |a| > 0 && Opens(a[0]) != Start && n == Run(a, Opens(a[0])) && Lookup(c).None?
    requires Tokens(a[n..] + [c] + b) == Tokens(a[n..]) + Tokens(b)
    ensures Tokens(a + [c] + b) == Tokens(a) + Tokens(b)
  {
    var st := Opens(a[0]);
    UnlistedRunePassesThrough(c);
    RunBefore(a, c, b, st);
    BreakSlices(a, c, b, n);
    TokensUnfold(a + [c] + b, st);
    TokensUnfold(a, st);
    ConsAppend(Kept(a[..n]), Tokens(a[n..]), Tokens(b));
  }

  lemma ConsAppend<T>(k: T, x: seq<T>, y: seq<T>)
    ensures [k] + (x + y) == [k] + x + y
  {
  }

  /** A non-empty sequence is its front followed by its last element; one of length one is that element. */
  lemma SnocLast<T>(w: seq<T>)
    requires |w| > 0
    ensures w[..|w| - 1] + [w[|w| - 1]] == w
    ensures |w| == 1 ==> w == [w[0]]
  {
  }

  /** How slicing `a + [c] + b` within `a` relates to slicing `a`. */
  lemma BreakSlices<T>(a: seq<T>, c: T, b: seq<T>, n: nat)
    requires 0 < n <= |a|
    ensures (a + [c] + b)[0] == a[0]
    ensures (a + [c] + b)[..n] == a[..n] && (a + [c] + b)[n..] == a[n..] + [c] + b
  {
    assert (a + [c] + b)[..n] == a[..n];
    assert (a + [c] + b)[n..] == a[n..] + [c] + b;
  }

  /** A rune that opens no word is skipped. */
  lemma TokensSkip(s: seq<char>)
    requires |s| > 0 && Opens(s[0]) == Start
    ensures Tokens(s) == Tokens(s[1..])
  {
  }

  /** A run stops at a rune that does not continue it, whatever follows. */
  lemma {:induction false} RunBefore(a: seq<char>, c: char, b: seq<char>, st: State)
    requires !Continues(st, c)
    ensures Run(a + [c] + b, st) == Run(a, st)
    decreases |a|
  {
    var s := a + [c] + b;
    if |a| == 0 {
      assert s[0] == c;
    } else if Continues(st, a[0]) {
      assert s[1..] == a[1..] + [c] + b;
      RunBefore(a[1..], c, b, st);
    } else {
      assert s[0] == a[0];
    }
  }

  /**
   * A tashkil after an Arabic or Farsi letter is dropped without ending the
   * word (processor.go:170-171), wherever the letter stands: whatever the
   * prefix `p` leaves the lexer in, the letter is then inside a Farsi word
   * and the tashkil continues it.
   */
  lemma {:induction false} DroppedInFarsiWord(p: seq<char>, a: char, t: char, s: seq<char>)
    requires IsArabicOrFarsiLetter(a) && IsTashkil(t)
    ensures Tokens(p + ([a, t] + s)) == Tokens(p + ([a] + s))
    decreases |p|
  {
    if |p| == 0 {
      assert p + ([a, t] + s) == [a, t] + s && p + ([a] + s) == [a] + s;
      DroppedAfterLetter(a, t, s);
    } else if Opens(p[0]) == Start {
      DroppedInFarsiWord(p[1..], a, t, s);
      SkipBefore(p, [a, t] + s, [a] + s);
    } else {
      var n := WordLength(p);
      if n < |p| {
        DroppedInFarsiWord(p[n..], a, t, s);
        WordBefore(p, [a, t] + s, [a] + s, n);
      } else {
        WordRunsToLetter(p, a, t, s);
      }
    }
  }

  /** A rune that opens no word, put in front of two inputs with the same words, leaves them the same. */
  lemma SkipBefore(p: seq<char>, x: seq<char>, y: seq<char>)
    requires |p| > 0 && Opens(p[0]) == Start
    requires Tokens(p[1..] + x) == Tokens(p[1..] + y)
    ensures Tokens(p + x) == Tokens(p + y)
  {
    AppendSlices(p, x, 1);
    AppendSlices(p, y, 1);
    TokensSkip(p + x);
    TokensSkip(p + y);
  }

  /** A word that ends inside `p` is the same word in front of either input. */
  lemma WordBefore(p: seq<char>, x: seq<char>, y: seq<char>, n: nat)
    requires |p| > 0 && Opens(p[0]) != Start && n == Run(p, Opens(p[0])) && n < |p|
    requires Tokens(p[n..] + x) == Tokens(p[n..] + y)
    ensures Tokens(p + x) == Tokens(p + y)
  {
    var st := Opens(p[0]);
    RunStops(p, x, st);
    RunStops(p, y, st);
    AppendSlices(p, x, n);
    AppendSlices(p, y, n);
    TokensUnfold(p + x, st);
    TokensUnfold(p + y, st);
  }

  /** How slicing `p + x` within `p` relates to slicing `p`. */
  lemma AppendSlices<T>(p: seq<T>, x: seq<T>, n: nat)
    requires 0 < n <= |p|
    ensures (p + x)[0] == p[0]
    ensures (p + x)[..n] == p[..n] && (p + x)[n..] == p[n..] + x
  {
    assert (p + x)[..n] == p[..n];
    assert (p + x)[n..] == p[n..] + x;
  }

  /** How slicing `p + x` beyond `p` relates to slicing `x`. */
  lemma AppendSlicesBeyond<T>(p: seq<T>, x: seq<T>, m: nat)
    requires m <= |x|
    ensures (p + x)[..|p| + m] == p + x[..m] && (p + x)[|p| + m..] == x[m..]
  {
    assert (p + x)[..|p| + m] == p + x[..m];
    assert (p + x)[|p| + m..] == x[m..];
  }

  /** A run that stops inside `p` stops at the same place whatever follows `p`. */
  lemma RunStops(p: seq<char>, x: seq<char>, st: State)
    requires Run(p, st) < |p|
    ensures Run(p + x, st) == Run(p, st)
  {
    var n := Run(p, st);
    assert forall i :: 0 <= i <= n ==> (p + x)[i] == p[i];
    RunExact(p + x, st, n);
  }

  /** A word that runs to the end of `p` meets the letter `a`: it ends there or, if Farsi, absorbs the tashkil too. */
  lemma WordRunsToLetter(p: seq<char>, a: char, t: char, s: seq<char>)
    requires IsArabicOrFarsiLetter(a) && IsTashkil(t)
    requires |p| > 0 && Opens(p[0]) != Start && Run(p, Opens(p[0])) == |p|
    ensures Tokens(p + ([a, t] + s)) == Tokens(p + ([a] + s))
  {
    var st := Opens(p[0]);
    if st == Farsi {
      FarsiWordAbsorbs(p, a, t, s);
    } else {
      ClassesExclusive(a);
      assert ([a, t] + s)[0] == a && ([a] + s)[0] == a;
      WordBoundary(p, [a, t] + s, st);
      WordBoundary(p, [a] + s, st);
      DroppedAfterLetter(a, t, s);
    }
  }

  /** A Farsi word that runs to the end of `p` continues over the letter and the tashkil, which it drops. */
  lemma FarsiWordAbsorbs(p: seq<char>, a: char, t: char, s: seq<char>)
    requires IsArabicOrFarsiLetter(a) && IsTashkil(t)
    requires |p| > 0 && Opens(p[0]) == Farsi && Run(p, Farsi) == |p|
    ensures Tokens(p + ([a, t] + s)) == Tokens(p + ([a] + s))
  {
    var r := Run(s, Farsi);
    FarsiRuns(a, t, s);
    WordGoesOn(p, [a, t] + s, Farsi, r + 2);
    WordGoesOn(p, [a] + s, Farsi, r + 1);
    ConsSlices(a, t, s, r);
    KeptDropsTashkil(a, t, s[..r]);
  }

  /** A word that runs to the end of `p` goes on over the run `x[..k]` of its kind that opens `x`. */
  lemma WordGoesOn(p: seq<char>, x: seq<char>, st: State, k: nat)
    requires |p| > 0 && st != Start && Opens(p[0]) == st && Run(p, st) == |p|
    requires k == Run(x, st)
    ensures Tokens(p + x) == [Kept(p) + Kept(x[..k])] + Tokens(x[k..])
  {
    AppendSlicesBeyond(p, x, k);
    OpensThrough(p, x, st);
    TokensUnfoldAt(p + x, st, |p| + k, p + x[..k], x[k..]);
    KeptAppend(p, x[..k]);
  }

  /** A word that runs over all of `p` opens `p + x` and runs on into `x`. */
  lemma OpensThrough(p: seq<char>, x: seq<char>, st: State)
    requires |p| > 0 && Opens(p[0]) == st && Run(p, st) == |p|
    ensures Opens((p + x)[0]) == st && Run(p + x, st) == |p| + Run(x, st)
  {
    AppendSlices(p, x, 1);
    RunThrough(p, x, st);
  }

  /** A run over all of `p` goes on into what follows. */
  lemma {:induction false} RunThrough(p: seq<char>, x: seq<char>, st: State)
    requires Run(p, st) == |p|
    ensures Run(p + x, st) == |p| + Run(x, st)
    decreases |p|
  {
    if |p| > 0 {
      AppendSlices(p, x, 1);
      RunThrough(p[1..], x, st);
    } else {
      assert p + x == x;
    }
  }

  /** The base case: a tashkil right after a letter at the front of the input. */
  lemma DroppedAfterLetter(a: char, t: char, s: seq<char>)
    requires IsArabicOrFarsiLetter(a) && IsTashkil(t)
    ensures Tokens([a, t] + s) == Tokens([a] + s)
  {
    var n := Run(s, Farsi);
    FarsiRuns(a, t, s);
    ConsSlices(a, t, s, n);
    TokensUnfold([a, t] + s, Farsi);
    TokensUnfold([a] + s, Farsi);
    KeptDropsTashkil(a, t, s[..n]);
  }

  /** The word a Farsi letter opens runs over a following tashkil. */
  lemma FarsiRuns(a: char, t: char, s: seq<char>)
    requires IsArabicOrFarsiLetter(a) && IsTashkil(t)
    ensures Opens(([a, t] + s)[0]) == Farsi && Opens(([a] + s)[0]) == Farsi
    ensures Run([a, t] + s, Farsi) == Run(s, Farsi) + 2 && Run([a] + s, Farsi) == Run(s, Farsi) + 1
  {
    FarsiLetterOpens(a);
    RunCons(t, s, Farsi);
    RunCons(a, [t] + s, Farsi);
    RunCons(a, s, Farsi);
    assert [a, t] + s == [a] + ([t] + s);
  }

  lemma ConsSlices<T>(a: T, t: T, s: seq<T>, n: nat)
    requires n <= |s|
    ensures [a, t] + s == [a] + ([t] + s)
    ensures ([a, t] + s)[..n + 2] == [a, t] + s[..n] && ([a] + s)[..n + 1] == [a] + s[..n]
    ensures ([a, t] + s)[n + 2..] == s[n..] == ([a] + s)[n + 1..]
  {
    assert [a, t] + s == [a] + ([t] + s);
    assert ([a, t] + s)[..n + 2] == [a, t] + s[..n];
    assert ([a] + s)[..n + 1] == [a] + s[..n];
  }

  lemma FarsiLetterOpens(a: char)
    requires IsArabicOrFarsiLetter(a)
    ensures Opens(a) == Farsi && Continues(Farsi, a)
  {
    ClassesExclusive(a);
  }

  /** The first word of `s` when its first rune opens one. */
  lemma TokensUnfold(s: seq<char>, st: State)
    requires |s| > 0 && st != Start && Opens(s[0]) == st
    ensures Tokens(s) == [Kept(s[..Run(s, st)])] + Tokens(s[Run(s, st)..])
  {
  }

  /** `TokensUnfold` with the first word and the rest of the input given. */
  lemma TokensUnfoldAt(s: seq<char>, st: State, n: nat, head: seq<char>, tail: seq<char>)
    requires |s| > 0 && st != Start && Opens(s[0]) == st && n == Run(s, st)
    requires head == s[..n] && tail == s[n..]
    ensures Tokens(s) == [Kept(head)] + Tokens(tail)
  {
    TokensUnfold(s, st);
  }

  lemma RunCons(c: char, s: seq<char>, st: State)
    requires Continues(st, c)
    ensures Run([c] + s, st) == 1 + Run(s, st)
  {
    assert ([c] + s)[1..] == s;
  }

  lemma KeptDropsTashkil(a: char, t: char, u: seq<char>)
    requires IsTashkil(t)
    ensures Kept([a, t] + u) == Kept([a] + u)
  {
    KeptAppend([a, t], u);
    KeptAppend([a], u);
    assert [a, t][..1] == [a];
  }

  /** Every emitted word is a token: not empty, of one kind, normalised (processor.go:143-192). */
  lemma {:induction false} TokensAreTokens(s: seq<char>)
    ensures forall i :: 0 <= i < |Tokens(s)| ==> IsToken(Tokens(s)[i])
    decreases |s|
  {
    if |s| > 0 {
      if Opens(s[0]) == Start {
        TokensAreTokens(s[1..]);
      } else {
        var st := Opens(s[0]);
        var n := Run(s, st);
        TokensAreTokens(s[n..]);
        KeptOfRun(s[..n], st);
      }
    }
  }

  /** What a run keeps is a token of its kind. */
  lemma KeptOfRun(w: seq<char>, st: State)
    requires WordRun(w, st)
    ensures IsToken(Kept(w))
  {
    KeptNonEmpty(w, st);
    KeptOfKind(w, st);
  }

  /** Every rune a run keeps is a normalised rune of the run's kind. */
  lemma {:induction false} KeptOfKind(w: seq<char>, st: State)
    requires st != Start && forall i :: 0 <= i < |w| ==> Continues(st, w[i])
    ensures forall i :: 0 <= i < |Kept(w)| ==> OfKind(st, Kept(w)[i]) && Normalize(Kept(w)[i]) == Kept(w)[i]
  {
    if |w| > 0 {
      var c := w[|w| - 1];
      KeptOfKind(w[..|w| - 1], st);
      if !IsTashkil(c) {
        KeptRune(c, st);
      }
    }
  }

  /** A rune that continues a word of kind `st` and is not a tashkil is kept as a normalised rune of that kind. */
  lemma KeptRune(c: char, st: State)
    requires st != Start && Continues(st, c) && !IsTashkil(c)
    ensures OfKind(st, Normalize(c)) && Normalize(Normalize(c)) == Normalize(c)
  {
    NormalizePreservesClass(c);
    NormalizeIdempotent(c);
  }

  /** Each input rune gives at most one rune of output (processor.go:135-192). */
  lemma {:induction false} TokensNoLonger(s: seq<char>)
    ensures TotalLength(Tokens(s)) <= |s|
    decreases |s|
  {
    if |s| > 0 {
      if Opens(s[0]) == Start {
        TokensNoLonger(s[1..]);
      } else {
        var n := Run(s, Opens(s[0]));
        TokensNoLonger(s[n..]);
        KeptNoLonger(s[..n]);
        TotalLengthCons(Kept(s[..n]), Tokens(s[n..]));
      }
    }
  }

  /** The number of runes in all of `ws`. */
  function TotalLength(ws: seq<Word>): nat
  {
    if |ws| == 0 then 0 else TotalLength(ws[..|ws| - 1]) + |ws[|ws| - 1]|
  }

  lemma {:induction false} TotalLengthCons(w: Word, ws: seq<Word>)
    ensures TotalLength([w] + ws) == |w| + TotalLength(ws)
    decreases |ws|
  {
    if |ws| == 0 {
      assert [w] + ws == [w] && [w][..0] == [];
    } else {
      TotalLengthCons(w, ws[..|ws| - 1]);
      assert ([w] + ws)[..|ws|] == [w] + ws[..|ws| - 1];
    }
  }

  lemma {:induction false} KeptNoLonger(s: seq<char>)
    ensures |Kept(s)| <= |s|
  {
    if |s| > 0 {
      KeptNoLonger(s[..|s| - 1]);
    }
  }

  /** Tokenising an emitted word gives back that word alone. */
  lemma RetokenizeToken(w: Word)
    requires IsToken(w)
    ensures Tokens(w) == [w]
  {
    var st := if AllOfKind(w, English) then English else if AllOfKind(w, Farsi) then Farsi else Number;
    TokenRuns(w, st);
    KeptToken(w, st);
    WordBoundary(w, [], st);
    assert w + [] == w;
  }

  /** A word of lower-case English letters is a token. */
  lemma LowerCaseIsToken(w: Word)
    requires |w| > 0 && forall i :: 0 <= i < |w| ==> 'a' <= w[i] <= 'z'
    ensures IsToken(w)
  {
    forall i | 0 <= i < |w|
      ensures OfKind(English, w[i]) && Normalize(w[i]) == w[i]
    {
      NormalizeFoldsEnglish(w[i]);
    }
  }

  /** The runes of a token of kind `st` form a run of that kind. */
  lemma TokenRuns(w: Word, st: State)
    requires |w| > 0 && st != Start && forall i :: 0 <= i < |w| ==> OfKind(st, w[i])
    ensures WordRun(w, st)
  {
    ClassesExclusive(w[0]);
  }

  /** A token keeps every one of its runes. */
  lemma {:induction false} KeptToken(w: Word, st: State)
    requires st != Start && forall i :: 0 <= i < |w| ==> OfKind(st, w[i]) && Normalize(w[i]) == w[i]
    ensures Kept(w) == w
  {
    if |w| > 0 {
      var u, c := w[..|w| - 1], w[|w| - 1];
      KeptToken(u, st);
      SnocLast(w);
      KeptTokenRune(u, c, st);
    }
  }

  /** A rune of a token, kept as it is, follows what the token kept before it. */
  lemma KeptTokenRune(u: seq<char>, c: char, st: State)
    requires st != Start && OfKind(st, c) && Normalize(c) == c
    ensures Kept(u + [c]) == Kept(u) + [c]
  {
    ClassesExclusive(c);
    assert (u + [c])[..|u|] == u;
  }

  /** Every word the tokeniser emits tokenises to itself. */
  lemma TokensAreFixed(s: seq<char>)
    ensures forall i :: 0 <= i < |Tokens(s)| ==> Tokens(Tokens(s)[i]) == [Tokens(s)[i]]
  {
    TokensAreTokens(s);
    forall i | 0 <= i < |Tokens(s)|
      ensures Tokens(Tokens(s)[i]) == [Tokens(s)[i]]
    {
      RetokenizeToken(Tokens(s)[i]);
    }
  }
}
