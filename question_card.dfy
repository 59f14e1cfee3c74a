/** One question card: the option classifier, the display helpers and the
    card-local interaction state (the selected option and the speaking flag). */
module QuestionCard {
  import opened Types
  import opened Text

  /** How an option button is styled. */
  datatype OptionStatus = Default | Correct | Wrong | Disabled

  /** `!!selectedOption`: an option counts as selected only when it is a
      non-empty string, so a selected empty option reads as no selection. */
  predicate HasSelection(selected: Option<string>)
  {
    selected.Some? && selected.value != []
  }

  /** The classifier applied to each option while rendering: every option
      is neutral before a selection and none is afterwards, and only the
      selected text can be marked wrong. */
  function StatusOf(selected: Option<string>, correctAnswer: string, option: string): (s: OptionStatus)
    ensures s == Default <==> !HasSelection(selected)
    ensures s == Wrong ==> option == selected.value && option != correctAnswer
  {
    if !HasSelection(selected) then Default
    else if option == correctAnswer then Correct
    else if option == selected.value then Wrong
    else Disabled
  }

  /** Before a selection every option is neutral. */
  lemma NoSelectionAllDefault(selected: Option<string>, correctAnswer: string, option: string)
    requires !HasSelection(selected)
    ensures StatusOf(selected, correctAnswer, option) == Default
  {
  }

  /** Once anything is selected, the correct option is marked correct,
      whichever option was clicked, and no other option is marked correct. */
  lemma CorrectOnceSelected(selected: Option<string>, correctAnswer: string, option: string)
    requires HasSelection(selected)
    ensures StatusOf(selected, correctAnswer, option) == Correct <==> option == correctAnswer
  {
  }

  /** An option is marked wrong exactly when it is the selection and the
      selection is not the correct answer. */
  lemma WrongIffSelectedMistake(selected: Option<string>, correctAnswer: string, option: string)
    ensures StatusOf(selected, correctAnswer, option) == Wrong <==>
      HasSelection(selected) && option == selected.value && option != correctAnswer
  {
  }

  /** The options marked wrong all carry the same text, the selected one. */
  lemma AtMostOneWrong(selected: Option<string>, q: Question, i: nat, j: nat)
    requires i < |q.options| && j < |q.options|
    requires StatusOf(selected, q.correctAnswer, q.options[i]) == Wrong
    requires StatusOf(selected, q.correctAnswer, q.options[j]) == Wrong
    ensures q.options[i] == q.options[j] == selected.value
  {
  }

  /** With a selection, no option is neutral, and every option that is
      neither the correct answer nor the selection is disabled. */
  lemma OthersDisabledOnceSelected(selected: Option<string>, correctAnswer: string, option: string)
    requires HasSelection(selected)
    ensures StatusOf(selected, correctAnswer, option) != Default
    ensures option != correctAnswer && option != selected.value ==>
      StatusOf(selected, correctAnswer, option) == Disabled
  {
  }

  /** `String.fromCharCode(65 + i)`, the letter drawn in front of option `i`. */
  function Label(i: nat): (c: char)
    requires 65 + i < 0xD800
    ensures i < 3 ==> c == "ABC"[i]
    ensures IsLabelLetter(c) <==> i < 3
    ensures c as int - 65 == i
  {
    (65 + i) as char
  }

  /** The letters the display strips, the class `[A-C]`. */
  predicate IsLabelLetter(c: char)
  {
    c == 'A' || c == 'B' || c == 'C'
  }

  /** Whether `option` starts with a match of `^[A-C]\.`. */
  predicate HasLabelPrefix(option: string)
  {
    |option| >= 2 && IsLabelLetter(option[0]) && option[1] == '.'
  }

  /** The option with the regular expression `^[A-C]\.\s*` replaced by the
      empty string: a leading letter A to C and its dot are dropped together
      with all whitespace after them; any other option is shown unchanged.
      The shown text is always a suffix of the option. */
  function DisplayText(option: string): (r: string)
    ensures |r| <= |option| && r == option[|option| - |r|..]
    ensures !HasLabelPrefix(option) ==> r == option
    ensures HasLabelPrefix(option) ==>
      |r| <= |option| - 2 &&
      (forall k :: 2 <= k < |option| - |r| ==> IsWhitespace(option[k])) &&
      (r == [] || !IsWhitespace(r[0]))
  {
    if HasLabelPrefix(option) then TrimStart(option[2..]) else option
  }

  /** The display undoes the conventional "A. text" form: an option written
      as the letter of its position, a dot, whitespace and a text that does
      not start with whitespace is shown as that text. */
  lemma {:induction false} DisplayStripsOwnLabel(i: nat, spaces: string, t: string)
    requires i < 3
    requires forall k :: 0 <= k < |spaces| ==> IsWhitespace(spaces[k])
    requires t == [] || !IsWhitespace(t[0])
    ensures DisplayText([Label(i), '.'] + spaces + t) == t
  {
    var option := [Label(i), '.'] + spaces + t;
    assert option[2..] == spaces + t;
    WhitespacePrefixDropped(spaces, t);
  }

  /** TrimStart drops a whitespace prefix and stops at the first character
      that is not whitespace. */
  lemma {:induction false} WhitespacePrefixDropped(spaces: string, t: string)
    requires forall k :: 0 <= k < |spaces| ==> IsWhitespace(spaces[k])
    requires t == [] || !IsWhitespace(t[0])
    ensures TrimStart(spaces + t) == t
    decreases |spaces|
  {
    if spaces == [] {
      assert spaces + t == t;
    } else {
      assert (spaces + t)[1..] == spaces[1..] + t;
      WhitespacePrefixDropped(spaces[1..], t);
    }
  }

  /** The words between the question and its options in the spoken text. */
  const UtteranceLink: string := ". Các lựa chọn là: "

  /** The text sent for speech synthesis: the question, the link words, and
      the options separated by ", ". UtteranceReadsOptions says where each
      option is read. */
  function Utterance(q: Question): (u: string)
    ensures |u| >= |q.content| + |UtteranceLink|
    ensures |q.options| == 0 ==> u == q.content + UtteranceLink
  {
    q.content + UtteranceLink + Join(q.options, ", ")
  }

  /** The utterance begins with the question text and the link words, and
      option `i` is read, verbatim, at its place after them. */
  lemma {:induction false} UtteranceReadsOptions(q: Question, i: nat)
    requires i < |q.options|
    ensures Utterance(q)[..|q.content| + |UtteranceLink|] == q.content + UtteranceLink
    ensures
      var at := |q.content| + |UtteranceLink| + JoinOffset(q.options, ", ", i);
      at + |q.options[i]| <= |Utterance(q)| &&
      Utterance(q)[at..at + |q.options[i]|] == q.options[i]
  {
    var head := q.content + UtteranceLink;
    var joined := Join(q.options, ", ");
    JoinAt(q.options, ", ", i);
    var o := JoinOffset(q.options, ", ", i);
    assert Utterance(q) == head + joined;
    SliceOfRightPart(head, joined, |head| + o, |head| + o + |q.options[i]|);
  }

  /** How the speech call ended; either way the card only logs a failure. */
  datatype AudioOutcome = Played | AudioFailed(message: string)

  class Card {
    const question: Question
    var selectedOption: Option<string>
    var isSpeaking: bool

    constructor (question: Question)
      ensures this.question == question
      ensures selectedOption == None && !isSpeaking
    {
      this.question := question;
      selectedOption := None;
      isSpeaking := false;
    }

    /** The option buttons accept clicks while nothing is selected. */
    function OptionsEnabled(): (r: bool)
      reads this
      ensures r <==> forall option :: StatusOf(selectedOption, question.correctAnswer, option) == Default
    {
      if HasSelection(selectedOption) then
        assert StatusOf(selectedOption, question.correctAnswer, question.correctAnswer) == Correct;
        false
      else true
    }

    /** The explanation is shown exactly when an option is selected, which is
        exactly when the option buttons are locked. */
    function ExplanationShown(): (r: bool)
      reads this
      ensures r <==> !OptionsEnabled()
      ensures r <==> StatusOf(selectedOption, question.correctAnswer, question.correctAnswer) == Correct
    {
      HasSelection(selectedOption)
    }

    /** A click on option `i`: records the option when nothing is selected
        yet, and is inert once a selection exists. */
    method ClickOption(i: nat)
      requires i < |question.options|
      modifies this
      ensures isSpeaking == old(isSpeaking)
      ensures old(HasSelection(selectedOption)) ==> selectedOption == old(selectedOption)
      ensures !old(HasSelection(selectedOption)) ==> selectedOption == Some(question.options[i])
    {
      if !HasSelection(selectedOption) {
        selectedOption := Some(question.options[i]);
      }
    }

    /** The part of the speak handler before the speech request. It is a
        no-op while a request is in progress; otherwise it raises the
        speaking flag and returns the text to synthesise. */
    method BeginSpeak() returns (request: Option<string>)
      modifies this
      ensures selectedOption == old(selectedOption)
      ensures old(isSpeaking) ==> request == None && isSpeaking
      ensures !old(isSpeaking) ==> request == Some(Utterance(question)) && isSpeaking
    {
      if isSpeaking {
        return None;
      }
      isSpeaking := true;
      request := Some(Utterance(question));
    }

    /** The `finally` of the speak handler: the flag drops whether the audio
        played or failed. Failures are only logged. */
    method FinishSpeak(outcome: AudioOutcome)
      modifies this
      ensures !isSpeaking
      ensures selectedOption == old(selectedOption)
    {
      isSpeaking := false;
    }

    /** The whole speak handler when nothing interleaves with the request. */
    method Speak(outcome: AudioOutcome) returns (request: Option<string>)
      modifies this
      ensures selectedOption == old(selectedOption)
      ensures old(isSpeaking) ==> request == None && isSpeaking
      ensures !old(isSpeaking) ==> request == Some(Utterance(question)) && !isSpeaking
    {
      request := BeginSpeak();
      if request.Some? {
        FinishSpeak(outcome);
      }
    }
  }

  /** A card is locked by its first real selection: a second click on any
      option changes nothing. */
  method SecondClickIsInert(q: Question, first: nat, second: nat) returns (afterFirst: Option<string>, afterSecond: Option<string>)
    requires first < |q.options| && second < |q.options|
    requires q.options[first] != []
    ensures afterFirst == Some(q.options[first])
    ensures afterSecond == afterFirst
  {
    var card := new Card(q);
    card.ClickOption(first);
    afterFirst := card.selectedOption;
    card.ClickOption(second);
    afterSecond := card.selectedOption;
  }

  /** An empty option does not lock the card: a later click replaces it. */
  method EmptyOptionDoesNotLock(q: Question, first: nat, second: nat) returns (shown: bool, afterSecond: Option<string>)
    requires first < |q.options| && second < |q.options|
    requires q.options[first] == []
    ensures !shown
    ensures afterSecond == Some(q.options[second])
  {
    var card := new Card(q);
    card.ClickOption(first);
    shown := card.ExplanationShown();
    card.ClickOption(second);
    afterSecond := card.selectedOption;
  }
}
