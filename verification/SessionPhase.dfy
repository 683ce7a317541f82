/** The session-phase machine of `session_phase.rs`: which inputs are legal when. */
module SessionPhase {
  import opened Wrappers

  datatype Phase = Idle | Running | Yielded

  datatype PhaseInput = Prompt | Yield | Abort | Finish | Continue

  /** `None` means the input is illegal in `current`. */
  function Transition(current: Phase, input: PhaseInput): Option<Phase> {
    match (current, input)
    case (Idle, Prompt) => Some(Running)
    case (Running, Yield) => Some(Yielded)
    case (_, Abort) => Some(Idle)
    case (Running, Finish) => Some(Idle)
    case (Yielded, Finish) => Some(Idle)
    case (Yielded, Continue) => Some(Running)
    case _ => None
  }

  /** The phase a whole word of inputs leads to, `None` as soon as one is illegal. */
  function Follow(start: Phase, word: seq<PhaseInput>): Option<Phase> {
    if word == [] then Some(start)
    else
      var before := Follow(start, word[..|word| - 1]);
      if before.None? then None else Transition(before.value, word[|word| - 1])
  }

  lemma FollowSnoc(start: Phase, word: seq<PhaseInput>, input: PhaseInput)
    requires Follow(start, word).Some?
    ensures Follow(start, word + [input]) == Transition(Follow(start, word).value, input)
  {
    assert (word + [input])[..|word|] == word;
  }

  /** Which input may come right behind which, at the front behind none. */
  predicate MayFollow(last: Option<PhaseInput>, next: PhaseInput) {
    match next
    case Prompt => last.None? || last.value == Finish || last.value == Abort
    case Yield => last.Some? && (last.value == Prompt || last.value == Continue)
    case Continue => last == Some(PhaseInput.Yield)
    case Finish => last.Some? && (last.value == Prompt || last.value == Continue || last.value == Yield)
    case Abort => true
  }

  function Last(word: seq<PhaseInput>): Option<PhaseInput> {
    if word == [] then None else Some(word[|word| - 1])
  }

  /** The phase is told by the last input alone. */
  function PhaseBehind(last: Option<PhaseInput>): Phase {
    if last.None? then Idle
    else match last.value
      case Prompt => Running
      case Continue => Running
      case Yield => Phase.Yielded
      case Finish => Idle
      case Abort => Idle
  }

  lemma StepExactly(last: Option<PhaseInput>, next: PhaseInput)
    ensures Transition(PhaseBehind(last), next) == if MayFollow(last, next) then Some(PhaseBehind(Some(next))) else None
  {
  }

  /** Every input may follow the one before it. */
  predicate Chained(word: seq<PhaseInput>) {
    forall i :: 0 <= i < |word| ==> MayFollow(Last(word[..i]), word[i])
  }

  lemma ChainedSnoc(word: seq<PhaseInput>, next: PhaseInput)
    ensures Chained(word + [next]) <==> Chained(word) && MayFollow(Last(word), next)
  {
    assert forall i :: 0 <= i <= |word| ==> (word + [next])[..i] == word[..i];
    assert word[..|word|] == word && (word + [next])[|word|] == next;
  }

  /** The legal words, input by input: a turn starts where none is under way, yields while it runs, goes on only
      behind a yield, finishes while it is under way, and is aborted at any time. */
  lemma {:induction false} LegalExactly(word: seq<PhaseInput>)
    ensures Follow(Idle, word).Some? <==> Chained(word)
    ensures Follow(Idle, word).Some? ==> Follow(Idle, word).value == PhaseBehind(Last(word))
  {
    if word == [] {
    } else {
      var init, next := word[..|word| - 1], word[|word| - 1];
      LegalExactly(init);
      ChainedSnoc(init, next);
      StepExactly(Last(init), next);
      assert word == init + [next];
    }
  }

  /** A legal word never prompts twice without the turn in between coming to an end:
      between two prompts stands a finish or an abort. */
  lemma {:induction false} PromptsAreSeparated(word: seq<PhaseInput>, i: nat, j: nat)
    requires Follow(Idle, word).Some?
    requires i < j < |word| && word[i] == Prompt && word[j] == Prompt
    ensures exists k :: i < k < j && (word[k] == Finish || word[k] == Abort)
  {
    FollowPrefix(word, j + 1);
    FollowPrefix(word, i + 1);
    assert word[..j + 1][..j] == word[..j];
    assert word[..i + 1][..i] == word[..i];
    if forall k :: i < k < j ==> word[k] != Finish && word[k] != Abort {
      StaysBusy(word, i, j);
    }
  }

  lemma {:induction false} FollowPrefix(word: seq<PhaseInput>, n: nat)
    requires n <= |word| && Follow(Idle, word).Some?
    ensures Follow(Idle, word[..n]).Some?
    decreases |word|
  {
    if n == |word| {
      assert word[..n] == word;
    } else {
      FollowPrefix(word[..|word| - 1], n);
      assert word[..|word| - 1][..n] == word[..n];
    }
  }

  lemma {:induction false} StaysBusy(word: seq<PhaseInput>, i: nat, j: nat)
    requires i < j <= |word| && Follow(Idle, word).Some? && word[i] == Prompt
    requires forall k :: i < k < j ==> word[k] != Finish && word[k] != Abort
    ensures Follow(Idle, word[..j]).Some? && Follow(Idle, word[..j]).value != Idle
    decreases j
  {
    FollowPrefix(word, j);
    assert word[..j][..j - 1] == word[..j - 1];
    if j > i + 1 {
      StaysBusy(word, i, j - 1);
    }
  }
}
