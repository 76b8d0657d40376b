/**
 * Word validation and prompt generation (src/lib/gameUtils.ts).
 *
 * The unseen word list `WORDS` is the parameter `words`. `Math.random()` is an
 * oracle: the n-th call yields `rand(n)`, a real in [0, 1). Every generator takes
 * the index `at` of its first draw and returns, beside the prompt, the index of
 * the first draw it left unused, so that the draws a caller makes after it are
 * accounted for exactly.
 */
module GameUtils {
  import opened Basics
  import opened Text

  /** A value `Math.random()` can return. */
  type Fraction = r: real | 0.0 <= r < 1.0

  /** The random source: call number `n` of `Math.random()` returns `rand(n)`. */
  type Draws = nat -> Fraction

  /** A generated prompt and the index of the first draw not consumed. */
  datatype Drawn = Drawn(prompt: string, next: nat)

  datatype Difficulty = Easy | Medium | Hard

  const CommonPrompts: seq<string> := ["ING", "TION", "ENT", "ER", "ED", "LY", "RE", "UN", "ION", "AL"]
  const EasyPrompts: seq<string> := ["ING", "ER", "ED", "LY", "ION", "AL", "EN", "RE"]
  const MediumPrompts: seq<string> := ["ENT", "TION", "CON", "PRE", "BLE", "NESS", "MENT", "IST"]

  /** The search gives up after this many attempts. */
  const MaxAttempts: nat := 10
  /** Counting stops as soon as the count exceeds this. */
  const CountCap: nat := 50
  /** A searched fragment must occur in at least this many playable words. */
  const MinOccurrences: nat := 10

  /** `Math.floor(r * n)`: a uniform index into a list of length `n`. */
  function Index(r: Fraction, n: nat): (i: nat)
    requires n > 0
    ensures i < n
  {
    assert r * n as real < n as real;
    (r * n as real).Floor
  }

  /** `list[Math.floor(r * list.length)]` */
  function Pick<T>(list: seq<T>, r: Fraction): T
    requires |list| > 0
  {
    list[Index(r, |list|)]
  }

  // ---------------------------------------------------------------- validation

  /** `dictionarySet`: the word list, upper-cased. */
  function DictionarySet(words: seq<string>): set<string>
  {
    set w | w in words :: Upper(w)
  }

  /** `isValidWord(word, prompt)` */
  function IsValidWord(words: seq<string>, word: string, prompt: string): bool
  {
    var upperWord := Normalize(word);
    |upperWord| > 2 && Contains(upperWord, Upper(prompt)) && upperWord in DictionarySet(words)
  }

  /** Validation ignores the case and the surrounding white space of the word,
      and the case of the prompt. */
  lemma ValidWordIgnoresCaseAndSpace(words: seq<string>, word: string, prompt: string)
    ensures IsValidWord(words, word, prompt) == IsValidWord(words, Normalize(word), prompt)
    ensures IsValidWord(words, word, prompt) == IsValidWord(words, word, Upper(prompt))
  {
    NormalizeIdempotent(word);
    assert Upper(Upper(prompt)) == Upper(prompt);
  }

  // ------------------------------------------------------------ playable words

  predicate IsConsonant(c: char)
  {
    c in "BCDFGHJKLMNPQRSTVWXYZ"
  }

  predicate IsVowel(c: char)
  {
    c in "AEIOU"
  }

  /** The `n` characters of `s` from index `i` on are all consonants. */
  predicate AllConsonants(s: string, i: int, n: nat)
  {
    0 <= i && i + n <= |s| && forall k :: i <= k < i + n ==> IsConsonant(s[k])
  }

  /** `s` holds `n` consonants in a row: `[BCDFGHJKLMNPQRSTVWXYZ]{n}` matches. */
  predicate ConsonantRun(s: string, n: nat)
  {
    exists i :: 0 <= i <= |s| - n && AllConsonants(s, i, n)
  }

  /** The filter's pattern `/[BCDFGHJKLMNPQRSTVWXYZ]{4,}|ELY|XQ|QZ|XZ|BPM|XIM/i`,
      tested on the upper-cased word (the `i` flag makes the two the same). */
  predicate HasRareCluster(upper: string)
  {
    || ConsonantRun(upper, 4)
    || Contains(upper, "ELY") || Contains(upper, "XQ") || Contains(upper, "QZ")
    || Contains(upper, "XZ") || Contains(upper, "BPM") || Contains(upper, "XIM")
  }

  /** The predicate of the `playableWords` filter. */
  predicate IsPlayable(word: string)
  {
    var upper := Upper(word);
    4 <= |upper| <= 15 && !HasRareCluster(upper)
  }

  /** `playableWords`: the word list filtered by `IsPlayable`, order kept. */
  function PlayableWords(words: seq<string>): (playable: seq<string>)
    ensures |playable| <= |words|
    ensures forall w :: w in playable <==> w in words && IsPlayable(w)
  {
    if words == [] then []
    else (if IsPlayable(words[0]) then [words[0]] else []) + PlayableWords(words[1..])
  }

  /** A run of consonants contains every shorter run. */
  lemma RunShrinks(s: string, n: nat, m: nat)
    requires m <= n && ConsonantRun(s, n)
    ensures ConsonantRun(s, m)
  {
    var i :| 0 <= i <= |s| - n && AllConsonants(s, i, n);
    assert AllConsonants(s, i, m);
  }

  /** Every playable word is 4 to 15 characters long, holds no run of four or
      more consonants (Y counting as one) and none of the excluded clusters. */
  lemma PlayableWordShape(words: seq<string>, w: string)
    requires w in PlayableWords(words)
    ensures w in words && 4 <= |w| <= 15
    ensures forall n: nat :: n >= 4 ==> !ConsonantRun(Upper(w), n)
    ensures forall c :: c in ["ELY", "XQ", "QZ", "XZ", "BPM", "XIM"] ==> !Contains(Upper(w), c)
  {
    forall n: nat | n >= 4 ensures !ConsonantRun(Upper(w), n) {
      if ConsonantRun(Upper(w), n) {
        RunShrinks(Upper(w), n, 4);
      }
    }
  }

  // ------------------------------------------------------------------ counting

  /** How many playable words contain `prompt` once upper-cased (no cap). */
  function CountContaining(playable: seq<string>, prompt: string): nat
  {
    if playable == [] then 0
    else CountContaining(playable[..|playable| - 1], prompt)
         + (if Contains(Upper(playable[|playable| - 1]), prompt) then 1 else 0)
  }

  /** A prefix of the list never has more matches than the whole list. */
  lemma {:induction false} CountContainingPrefix(playable: seq<string>, prompt: string, j: nat)
    requires j <= |playable|
    ensures CountContaining(playable[..j], prompt) <= CountContaining(playable, prompt)
  {
    if j == |playable| {
      assert playable[..j] == playable;
    } else {
      var init := playable[..|playable| - 1];
      assert playable[..j] == init[..j];
      CountContainingPrefix(init, prompt, j);
    }
  }

  /** `countWordsWithPrompt(prompt)`: counts the matches and stops at the first
      one past the cap, so the result is the true count capped at 51. */
  method CountWordsWithPrompt(playable: seq<string>, prompt: string) returns (count: nat)
    ensures count == Min(CountContaining(playable, prompt), CountCap + 1)
  {
    count := 0;
    var i := 0;
    while i < |playable|
      invariant 0 <= i <= |playable|
      invariant count == CountContaining(playable[..i], prompt) <= CountCap
    {
      assert playable[..i + 1][..i] == playable[..i];
      if Contains(Upper(playable[i]), prompt) {
        count := count + 1;
        if count > CountCap {
          CountContainingPrefix(playable, prompt, i + 1);
          break;
        }
      }
      i := i + 1;
    }
    assert i == |playable| ==> playable[..i] == playable;
  }

  // ------------------------------------------------------------ random prompts

  /** `/X[^AEIOU]|[^AEIOU]X|Q[^U]/i` at one pair of neighbours. */
  predicate RarePair(a: char, b: char)
  {
    (a == 'X' && !IsVowel(b)) || (!IsVowel(a) && b == 'X') || (a == 'Q' && b != 'U')
  }

  /** `/X[^AEIOU]|[^AEIOU]X|Q[^U]|[BCDFGHJKLMNPQRSTVWXYZ]{3}/i.test(prompt)` */
  predicate HasRareCombination(prompt: string)
  {
    var u := Upper(prompt);
    (exists i :: 0 <= i < |u| - 1 && RarePair(u[i], u[i + 1])) || ConsonantRun(u, 3)
  }

  /** What the search may accept: a fragment of two or three letters, cut at
      offset one or later out of a playable word of five or more letters, that
      occurs in at least ten playable words and has no rare combination. */
  ghost predicate IsSearchedFragment(playable: seq<string>, p: string)
  {
    && (|p| == 2 || |p| == 3)
    && CountContaining(playable, p) >= MinOccurrences
    && !HasRareCombination(p)
    && exists i, s :: 0 <= i < |playable| && |playable[i]| >= 5 && 1 <= s
                      && OccursAt(Upper(playable[i]), p, s)
  }

  /** What `getRandomPrompt` may return: a common prompt or a searched fragment. */
  ghost predicate IsGeneratedPrompt(playable: seq<string>, p: string)
  {
    p in CommonPrompts || IsSearchedFragment(playable, p)
  }

  /** Where the search cuts its fragment: uniformly between `min(1, maxStart)`
      and `maxStart`, so never at the first letter of a word longer than the
      fragment. */
  function FragmentStart(wordLength: nat, length: nat, r: Fraction): (start: nat)
    requires wordLength > length
    ensures 1 <= start && start + length <= wordLength
  {
    var maxStart := wordLength - length;
    var minStart := Min(1, maxStart);
    minStart + Index(r, maxStart - minStart + 1)
  }

  /** `getRandomPrompt()`, draw by draw: a 40% draw for a common prompt,
      otherwise the search. */
  function RandomPrompt(playable: seq<string>, rand: Draws, at: nat): Drawn
    requires |playable| > 0
  {
    if rand(at) < 0.4 then Drawn(Pick(CommonPrompts, rand(at + 1)), at + 2)
    else Search(playable, rand, at + 1, 0)
  }

  /** The outcome of one attempt of the search: the fragment it accepted, if
      any, and the draw cursor after it. */
  datatype Trial = Trial(fragment: Option<string>, next: nat)

  /** One attempt of the search loop: a playable word is drawn; a word of fewer
      than five letters is skipped, otherwise a fragment of three letters (20%)
      or two is cut from it and accepted when at least ten playable words
      contain it and it has no rare combination. */
  function Attempt(playable: seq<string>, rand: Draws, at: nat): (t: Trial)
    requires |playable| > 0
    ensures at + 1 <= t.next <= at + 3
  {
    var word := Upper(Pick(playable, rand(at)));
    if |word| < 5 then Trial(None, at + 1)
    else
      var length := if rand(at + 1) > 0.8 then 3 else 2;
      var start := FragmentStart(|word|, length, rand(at + 2));
      var p := word[start..start + length];
      if Min(CountContaining(playable, p), CountCap + 1) >= MinOccurrences && !HasRareCombination(p)
      then Trial(Some(p), at + 3)
      else Trial(None, at + 3)
  }

  /** The search loop of `getRandomPrompt`, from the attempt numbered `attempts`;
      after the tenth failed attempt a common prompt is drawn. */
  function Search(playable: seq<string>, rand: Draws, at: nat, attempts: nat): Drawn
    requires |playable| > 0 && attempts <= MaxAttempts
    decreases MaxAttempts - attempts
  {
    if attempts == MaxAttempts then Drawn(Pick(CommonPrompts, rand(at)), at + 1)
    else
      var t := Attempt(playable, rand, at);
      match t.fragment
      case Some(p) => Drawn(p, t.next)
      case None => Search(playable, rand, t.next, attempts + 1)
  }

  /** A fragment cut from inside a long enough word that passes the count and
      rarity tests is an acceptable search result. */
  lemma FragmentIsSearched(playable: seq<string>, i: nat, start: nat, length: nat)
    requires i < |playable| && |Upper(playable[i])| >= 5 && (length == 2 || length == 3)
    requires 1 <= start && start + length <= |Upper(playable[i])|
    requires var p := Upper(playable[i])[start..start + length];
      Min(CountContaining(playable, p), CountCap + 1) >= MinOccurrences && !HasRareCombination(p)
    ensures IsSearchedFragment(playable, Upper(playable[i])[start..start + length])
  {
    var p := Upper(playable[i])[start..start + length];
    assert OccursAt(Upper(playable[i]), p, start);
  }

  /** Whatever fragment an attempt accepts is an acceptable search result. */
  lemma AttemptShape(playable: seq<string>, rand: Draws, at: nat)
    requires |playable| > 0
    ensures var t := Attempt(playable, rand, at);
      t.fragment.Some? ==> IsSearchedFragment(playable, t.fragment.value)
  {
    var i := Index(rand(at), |playable|);
    var word := Upper(playable[i]);
    if |word| >= 5 {
      var length := if rand(at + 1) > 0.8 then 3 else 2;
      var start := FragmentStart(|word|, length, rand(at + 2));
      var p := word[start..start + length];
      if Min(CountContaining(playable, p), CountCap + 1) >= MinOccurrences && !HasRareCombination(p) {
        FragmentIsSearched(playable, i, start, length);
      }
    }
  }

  /** Whatever the draws, the search yields a common prompt or an acceptable
      fragment, and makes between one and three draws per remaining attempt plus
      one for the fallback. */
  lemma {:induction false} SearchShape(playable: seq<string>, rand: Draws, at: nat, attempts: nat)
    requires |playable| > 0 && attempts <= MaxAttempts
    ensures var d := Search(playable, rand, at, attempts);
      IsGeneratedPrompt(playable, d.prompt) && at + 1 <= d.next <= at + 3 * (MaxAttempts - attempts) + 1
    decreases MaxAttempts - attempts
  {
    if attempts < MaxAttempts {
      AttemptShape(playable, rand, at);
      var t := Attempt(playable, rand, at);
      if t.fragment.None? {
        SearchShape(playable, rand, t.next, attempts + 1);
      }
    }
  }

  /** `getRandomPrompt` always yields a common prompt or an acceptable fragment,
      after at most ten attempts: between 2 and 32 draws. */
  lemma RandomPromptShape(playable: seq<string>, rand: Draws, at: nat)
    requires |playable| > 0
    ensures var d := RandomPrompt(playable, rand, at);
      IsGeneratedPrompt(playable, d.prompt) && at + 2 <= d.next <= at + 32
  {
    if rand(at) >= 0.4 {
      SearchShape(playable, rand, at + 1, 0);
    }
  }

  /** The body of the search loop, counting with `CountWordsWithPrompt`. */
  method TryAttempt(playable: seq<string>, rand: Draws, at: nat) returns (fragment: Option<string>, next: nat)
    requires |playable| > 0
    ensures Trial(fragment, next) == Attempt(playable, rand, at)
  {
    var word := Upper(Pick(playable, rand(at)));
    if |word| < 5 {
      return None, at + 1;
    }
    var length := if rand(at + 1) > 0.8 then 3 else 2;
    var start := FragmentStart(|word|, length, rand(at + 2));
    var p := word[start..start + length];
    var wordCount := CountWordsWithPrompt(playable, p);
    if wordCount >= MinOccurrences && !HasRareCombination(p) {
      return Some(p), at + 3;
    }
    return None, at + 3;
  }

  /** `getRandomPrompt()` as the source runs it: a loop over a mutable attempt
      counter with early returns, counting with `CountWordsWithPrompt`. */
  method GetRandomPrompt(playable: seq<string>, rand: Draws, at: nat) returns (prompt: string, next: nat)
    requires |playable| > 0
    ensures Drawn(prompt, next) == RandomPrompt(playable, rand, at)
  {
    if rand(at) < 0.4 {
      return Pick(CommonPrompts, rand(at + 1)), at + 2;
    }
    var attempts: nat := 0;
    var cursor: nat := at + 1;
    while attempts < MaxAttempts
      invariant attempts <= MaxAttempts
      invariant Search(playable, rand, cursor, attempts) == RandomPrompt(playable, rand, at)
    {
      attempts := attempts + 1;
      var fragment, next := TryAttempt(playable, rand, cursor);
      if fragment.Some? {
        return fragment.value, next;
      }
      cursor := next;
    }
    return Pick(CommonPrompts, rand(cursor)), cursor + 1;
  }

  // ---------------------------------------------------------------- difficulty

  /** `getPromptByDifficulty(difficulty)`; the corpus must be non-empty when the search can run. */
  function PromptByDifficulty(playable: seq<string>, difficulty: Difficulty, rand: Draws, at: nat): Drawn
    requires difficulty == Easy || |playable| > 0
  {
    match difficulty
    case Easy => Drawn(Pick(EasyPrompts, rand(at)), at + 1)
    case Medium =>
      if rand(at) < 0.5 then Drawn(Pick(MediumPrompts, rand(at + 1)), at + 2)
      else RandomPrompt(playable, rand, at + 1)
    case Hard => RandomPrompt(playable, rand, at)
  }

  /** Every generated prompt has two to four letters. */
  lemma GeneratedPromptLength(playable: seq<string>, p: string)
    requires IsGeneratedPrompt(playable, p) || p in EasyPrompts || p in MediumPrompts
    ensures 2 <= |p| <= 4
  {
  }

  /** Easy draws from the easy list, medium from the medium list or the search,
      hard from the search; every prompt is non-empty and at least one draw is made. */
  lemma PromptByDifficultyShape(playable: seq<string>, difficulty: Difficulty, rand: Draws, at: nat)
    requires difficulty == Easy || |playable| > 0
    ensures var d := PromptByDifficulty(playable, difficulty, rand, at);
      && (difficulty == Easy ==> d.prompt in EasyPrompts)
      && (difficulty == Medium ==> d.prompt in MediumPrompts || IsGeneratedPrompt(playable, d.prompt))
      && (difficulty == Hard ==> IsGeneratedPrompt(playable, d.prompt))
      && 2 <= |d.prompt| <= 4
      && at < d.next <= at + 33
  {
    var d := PromptByDifficulty(playable, difficulty, rand, at);
    if difficulty == Hard {
      RandomPromptShape(playable, rand, at);
    } else if difficulty == Medium && rand(at) >= 0.5 {
      RandomPromptShape(playable, rand, at + 1);
    }
    GeneratedPromptLength(playable, d.prompt);
  }
}
