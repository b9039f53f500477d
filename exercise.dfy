/** Word-list progression of a practice module (app.js:31-37, 158-191,
    239-249): `startModule`, `loadCurrentWord`, `nextWord`, `updateProgress`. */
module Exercise {
  import opened Wrappers

  /** The words of each practice module. */
  const MODULE_WORDS: map<string, seq<string>> := map[
    "pronunciation" := ["Hello", "Beautiful", "Butterfly", "Rainbow", "Elephant", "Strawberry"],
    "sound-matching" := ["Cat", "Dog", "Bird", "Fish", "Lion", "Bear"],
    "word-repetition" := ["Apple", "Orange", "Banana", "Grape", "Cherry", "Peach"],
    "sentence-building" := ["I am happy", "The cat runs", "Birds can fly", "We love books", "Sun is bright", "Flowers smell nice"]
  ]

  lemma EveryModuleHasSixWords()
    ensures |MODULE_WORDS| == 4
    ensures forall m :: m in MODULE_WORDS ==> |MODULE_WORDS[m]| == 6
  {
    assert MODULE_WORDS.Keys == {"pronunciation", "sound-matching", "word-repetition", "sentence-building"};
  }

  /** `moduleWords[currentModule]`, absent for a null or unknown module. */
  function WordsOf(selected: Option<string>): (r: Option<seq<string>>)
    ensures r.Some? <==> selected.Some? && selected.value in MODULE_WORDS
    ensures r.Some? ==> r.value == MODULE_WORDS[selected.value] && |r.value| == 6
  {
    EveryModuleHasSixWords();
    if selected.Some? && selected.value in MODULE_WORDS then Some(MODULE_WORDS[selected.value]) else None
  }

  /** The word `loadCurrentWord` shows, or None when the exercise is over. */
  function WordAt(selected: Option<string>, index: nat): (r: Option<string>)
    ensures r.Some? <==> WordsOf(selected).Some? && index < 6
    ensures r.Some? ==> r.value == WordsOf(selected).value[index]
  {
    match WordsOf(selected)
    case Some(words) => if index < |words| then Some(words[index]) else None
    case None => None
  }

  /** `(index / length) * 100`. */
  function ProgressPercent(index: nat, length: nat): (p: real)
    requires length > 0
    ensures index == 0 ==> p == 0.0
    ensures index <= length ==> 0.0 <= p <= 100.0
    ensures p == 100.0 <==> index == length
  {
    var q := index as real / length as real;
    assert q * length as real == index as real;
    q * 100.0
  }

  /** Each step forward strictly increases the progress. */
  lemma ProgressIncreases(i: nat, j: nat, length: nat)
    requires length > 0 && i < j
    ensures ProgressPercent(i, length) < ProgressPercent(j, length)
  {
    var l := length as real;
    DivideLess(i as real, j as real, l);
    assert ProgressPercent(i, length) == (i as real / l) * 100.0;
    assert ProgressPercent(j, length) == (j as real / l) * 100.0;
  }

  lemma DivideLess(a: real, b: real, l: real)
    requires l > 0.0 && a < b
    ensures a / l < b / l
  {
    var d := (b - a) / l;
    assert d * l == b - a;
    assert d > 0.0;
    assert b / l == a / l + d;
  }

  /** What showing the current word led to. */
  datatype Shown = Word(word: string) | Completed | NoWordList

  class Practice {
    var currentModule: Option<string>
    var currentWordIndex: nat
    var moduleProgress: real
    /** Width of the progress bar, in percent. */
    var progressWidth: real
    /** Text of the current-word element. */
    var currentWord: string

    ghost predicate Valid()
      reads this
    {
      && progressWidth == moduleProgress
      && (WordsOf(currentModule).Some? ==> moduleProgress == ProgressPercent(currentWordIndex, 6))
    }

    /** The page's initial state (app.js:2-5). */
    constructor ()
      ensures Valid()
      ensures currentModule == None && currentWordIndex == 0 && moduleProgress == 0.0
    {
      currentModule := None;
      currentWordIndex := 0;
      moduleProgress := 0.0;
      progressWidth := 0.0;
      currentWord := "";
    }

    /** `loadCurrentWord`: shows the word at the index, or completes the
        exercise (the completion message and the return to the dashboard). */
    method LoadCurrentWord() returns (shown: Shown)
      modifies this`currentWord
      ensures shown == (match WordAt(currentModule, currentWordIndex)
                        case Some(w) => Word(w)
                        case None => Completed)
      ensures currentWord == (if shown.Word? then shown.word else old(currentWord))
    {
      var w := WordAt(currentModule, currentWordIndex);
      if w.Some? {
        currentWord := w.value;
        shown := Word(w.value);
      } else {
        shown := Completed;
      }
    }

    /** `updateProgress`: the bar shows the progress. */
    method UpdateProgress()
      modifies this`progressWidth
      ensures progressWidth == moduleProgress
    {
      progressWidth := moduleProgress;
    }

    /** `startModule`. */
    method StartModule(name: string) returns (shown: Shown)
      requires Valid()
      modifies this
      ensures Valid()
      ensures currentModule == Some(name) && currentWordIndex == 0 && moduleProgress == 0.0
      ensures shown == if name in MODULE_WORDS then Word(MODULE_WORDS[name][0]) else Completed
      ensures currentWord == if name in MODULE_WORDS then MODULE_WORDS[name][0] else old(currentWord)
    {
      currentModule := Some(name);
      currentWordIndex := 0;
      moduleProgress := 0.0;
      shown := LoadCurrentWord();
      UpdateProgress();
    }

    /** `nextWord`. With no word list for the current module the property
        access `.length` throws after the index has been incremented: the
        result is then NoWordList and nothing else changes. */
    method NextWord() returns (shown: Shown)
      requires Valid()
      modifies this
      ensures Valid()
      ensures currentModule == old(currentModule) && currentWordIndex == old(currentWordIndex) + 1
      ensures WordsOf(currentModule).None? ==>
                shown == NoWordList && moduleProgress == old(moduleProgress) && currentWord == old(currentWord)
      ensures WordsOf(currentModule).Some? ==>
                && moduleProgress == ProgressPercent(currentWordIndex, 6)
                && moduleProgress > old(moduleProgress)
                && (currentWordIndex < 6 ==>
                      && shown == Word(MODULE_WORDS[currentModule.value][currentWordIndex])
                      && currentWord == MODULE_WORDS[currentModule.value][currentWordIndex])
                && (currentWordIndex >= 6 ==> shown == Completed && currentWord == old(currentWord))
    {
      currentWordIndex := currentWordIndex + 1;
      var words := WordsOf(currentModule);
      if words.None? {
        shown := NoWordList;
        return;
      }
      ProgressIncreases(currentWordIndex - 1, currentWordIndex, 6);
      moduleProgress := ProgressPercent(currentWordIndex, |words.value|);
      UpdateProgress();
      shown := LoadCurrentWord();
    }
  }

  /** A full run of a known module: every word in order, then completion with
      the progress bar full. */
  method PracticeRun(name: string) returns (shownWords: seq<string>, last: Shown, progress: real)
    requires name in MODULE_WORDS
    ensures shownWords == MODULE_WORDS[name]
    ensures last == Completed && progress == 100.0
  {
    EveryModuleHasSixWords();
    var p := new Practice();
    var first := p.StartModule(name);
    shownWords := [first.word];
    var k := 1;
    while k < 6
      invariant 1 <= k <= 6
      invariant p.Valid() && p.currentModule == Some(name) && p.currentWordIndex == k - 1
      invariant shownWords == MODULE_WORDS[name][..k]
    {
      var s := p.NextWord();
      shownWords := shownWords + [s.word];
      k := k + 1;
    }
    last := p.NextWord();
    progress := p.progressWidth;
  }
}
