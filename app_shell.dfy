/** The application shell: a five-state view controller holding the student's
    name, the current question set and the last error message. */
module AppShell {
  import opened Types
  import opened Text

  /** How the in-flight question request ended: the parsed questions, or a
      thrown error whose `message` may be missing. */
  datatype FetchOutcome = Fetched(questions: seq<Question>) | FetchFailed(message: Option<string>)

  /** The localised message shown when the thrown error carries none. */
  const FallbackError: string := "Đã có lỗi xảy ra"

  /** `err.message || FallbackError`: the message when it is a non-empty
      string, the fallback otherwise. Never empty. */
  function ErrorText(message: Option<string>): (r: string)
    ensures r != []
    ensures message.Some? && message.value != [] ==> r == message.value
    ensures message == None || message == Some("") ==> r == FallbackError
  {
    if message.Some? && message.value != [] then message.value else FallbackError
  }

  class App {
    var state: AppState
    var studentName: string
    var questions: seq<Question>
    var error: Option<string>

    /** The Error view always has a non-empty message to display. */
    ghost predicate Valid()
      reads this
    {
      state == Error ==> error.Some? && error.value != []
    }

    constructor ()
      ensures Valid()
      ensures state == Idle && studentName == "" && questions == [] && error == None
    {
      state := Idle;
      studentName := "";
      questions := [];
      error := None;
    }

    /** The "start" button: shows the name form and touches nothing else. */
    method Start()
      requires Valid()
      modifies this
      ensures Valid()
      ensures state == NameInput
      ensures studentName == old(studentName) && questions == old(questions) && error == old(error)
    {
      state := NameInput;
    }

    /** The name field's change handler: replaces the name only. */
    method EditName(name: string)
      requires Valid()
      modifies this
      ensures Valid()
      ensures studentName == name
      ensures state == old(state) && questions == old(questions) && error == old(error)
    {
      studentName := name;
    }

    /** The submit button's enabled flag, `!!studentName.trim()`: enabled
        exactly when the name holds a character that is not whitespace. */
    function SubmitEnabled(): (r: bool)
      reads this
      ensures r <==> exists i :: 0 <= i < |studentName| && !IsWhitespace(studentName[i])
    {
      !IsBlank(studentName)
    }

    /** The synchronous part of the generate handler, up to the request.
        A blank name is an early return that changes nothing; otherwise the
        shell shows the loading view and clears the previous error.
        `started` tells whether the request is sent; it is sent exactly when
        the submit button would be enabled. */
    method BeginGenerate() returns (started: bool)
      requires Valid()
      modifies this
      ensures Valid()
      ensures started == old(SubmitEnabled())
      ensures !started ==>
        state == old(state) && studentName == old(studentName) &&
        questions == old(questions) && error == old(error)
      ensures started ==>
        state == Loading && error == None &&
        studentName == old(studentName) && questions == old(questions)
    {
      if IsBlank(studentName) {
        return false;
      }
      state := Loading;
      error := None;
      started := true;
    }

    /** The continuation after the request settles. It updates the shell
        whatever view is active, so a completion that arrives after a reset
        still moves the shell to Result or Error. The name is never touched. */
    method CompleteGenerate(outcome: FetchOutcome)
      requires Valid()
      modifies this
      ensures Valid()
      ensures studentName == old(studentName)
      ensures outcome.Fetched? ==>
        questions == outcome.questions && state == Result && error == old(error)
      ensures outcome.FetchFailed? ==>
        error == Some(ErrorText(outcome.message)) && state == Error && questions == old(questions)
    {
      match outcome
      case Fetched(qs) =>
        questions := qs;
        state := Result;
      case FetchFailed(m) =>
        error := Some(ErrorText(m));
        state := Error;
    }

    /** The whole generate handler when no other event interleaves with the
        request: the begin step, then, if the request was sent, the
        completion with the request's outcome. Used by submit, retry and the
        three regenerate buttons alike. */
    method Generate(outcome: FetchOutcome) returns (started: bool)
      requires Valid()
      modifies this
      ensures Valid()
      ensures started == old(SubmitEnabled())
      ensures studentName == old(studentName)
      ensures !started ==>
        state == old(state) && questions == old(questions) && error == old(error)
      ensures started && outcome.Fetched? ==>
        state == Result && questions == outcome.questions && error == None
      ensures started && outcome.FetchFailed? ==>
        state == Error && questions == old(questions) && error == Some(ErrorText(outcome.message))
    {
      started := BeginGenerate();
      if started {
        CompleteGenerate(outcome);
      }
    }

    /** The branding element and the "exit" button: back to the welcome view
        with no name and no questions. The last error message is kept. */
    method Reset()
      requires Valid()
      modifies this
      ensures Valid()
      ensures state == Idle && studentName == "" && questions == []
      ensures error == old(error)
    {
      state := Idle;
      studentName := "";
      questions := [];
    }
  }

  /** A request whose completion arrives after the user reset the shell still
      lands: the shell shows the result view, with the name the reset cleared. */
  method StaleCompletionAfterReset(name: string, qs: seq<Question>) returns (view: AppState, shownName: string, shown: seq<Question>)
    requires !IsBlank(name)
    ensures view == Result && shownName == "" && shown == qs
  {
    var app := new App();
    app.Start();
    app.EditName(name);
    var started := app.BeginGenerate();
    assert started;
    app.Reset();
    app.CompleteGenerate(Fetched(qs));
    view, shownName, shown := app.state, app.studentName, app.questions;
  }

  /** Retrying after a failure re-sends the request under the same name. */
  method RetryKeepsName(name: string, m: Option<string>, qs: seq<Question>) returns (failedView: AppState, message: Option<string>, view: AppState, shownName: string)
    requires !IsBlank(name)
    ensures failedView == Error && message == Some(ErrorText(m))
    ensures view == Result && shownName == name
  {
    var app := new App();
    app.Start();
    app.EditName(name);
    var started := app.Generate(FetchFailed(m));
    failedView, message := app.state, app.error;
    started := app.Generate(Fetched(qs));
    view, shownName := app.state, app.studentName;
  }
}
