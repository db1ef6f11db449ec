/**
 * The observer side of the database setup: the wizard page that receives
 * the worker's progress and error events, shows them, advances the
 * workflow automatically after INIT and TEST, and asks the user before the
 * destructive CREATE and the optional TEST stages.
 */
module SetupPage {
  import opened Options
  import opened Stages
  import opened Worker

  /** The icon shown next to a stage. */
  datatype Icon = NoIcon | OkIcon | ErrorIcon

  /** The two questions the page asks: recreate the tables, insert test values. */
  datatype Question = Reconfigure | InsertTestValues

  /** A pending yes/no question and the stages its two answers run. */
  datatype Prompt = Prompt(question: Question, accept: int, reject: int)

  /**
   * The stage the page runs by itself when it sees `(state, p)`: the next
   * stage, after INIT and TEST have finished, and nothing otherwise.
   */
  function AutoCommand(state: int, p: real): (r: Option<int>)
    ensures r.Some? <==> p == DONE && (state == STATE_INIT || state == STATE_TEST)
    ensures r.Some? ==> r.value == state + 1 && IsStage(r.value)
  {
    if state == STATE_INIT && p == DONE then Some(STATE_LOAD)
    else if state == STATE_TEST && p == DONE then Some(STATE_DONE)
    else None
  }

  /**
   * The question the page installs when it sees `(state, p)`: after LOAD and
   * after CREATE have finished; accepting runs the next stage, rejecting
   * runs DONE.
   */
  function PromptTargets(state: int, p: real): (r: Option<Prompt>)
    ensures r.Some? <==> p == DONE && (state == STATE_LOAD || state == STATE_CREATE)
    ensures r.Some? ==> r.value.accept == state + 1 && r.value.reject == STATE_DONE
    ensures r.Some? ==> AutoCommand(state, p).None?
  {
    if state == STATE_LOAD && p == DONE then
      Some(Prompt(Reconfigure, STATE_CREATE, STATE_DONE))
    else if state == STATE_CREATE && p == DONE then
      Some(Prompt(InsertTestValues, STATE_TEST, STATE_DONE))
    else None
  }

  /** The status text the page shows for `(state, p)`, when it shows one. */
  function ProgressMessage(state: int, p: real): (r: Option<string>)
    ensures r.Some? ==> IsStage(state) && (p == START || p == DONE)
    ensures STATE_INIT <= state <= STATE_TEST && (p == START || p == DONE) ==> r.Some?
    ensures state == STATE_DONE ==> (r.Some? <==> p == DONE)
  {
    if state == STATE_INIT then
      if p == START then Some("Connecting to database...")
      else if p == DONE then Some("Connected to database.") else None
    else if state == STATE_LOAD then
      if p == START then Some("Loading models...")
      else if p == DONE then Some("Models loaded.") else None
    else if state == STATE_CREATE then
      if p == START then Some("Creating tables...")
      else if p == DONE then Some("Tables created.") else None
    else if state == STATE_TEST then
      if p == START then Some("Inserting test values...")
      else if p == DONE then Some("Inserted test values.") else None
    else if state == STATE_DONE && p == DONE then Some("Done.")
    else None
  }

  /** The headline of the error text shown for a failed stage. */
  function ErrorHeadline(state: int): string {
    if state == STATE_INIT then "Could not connect to database!"
    else if state == STATE_LOAD then "Error loading models!"
    else if state == STATE_CREATE then "Error creating tables!"
    else if state == STATE_TEST then "Error inserting test values!"
    else "An error occured!"
  }

  /** The icon after a message with phase marker `phase` (-1 on the error path). */
  function IconAfter(current: Icon, phase: real): Icon {
    if phase == START then current
    else if phase == DONE then OkIcon
    else if phase < START then ErrorIcon
    else current
  }

  /** The overall percentage shown for `(state, p)`: each stage is a fifth. */
  function OverallProgress(state: int, p: real): real {
    ((state - 1) as real + p / DONE) * 100.0 / (STATE_DONE as real)
  }

  /** The stage numbers the page has a row for. */
  const AllStages: set<int> := {STATE_INIT, STATE_LOAD, STATE_CREATE, STATE_TEST, STATE_DONE}

  /** The setup wizard page's own state. */
  class Page {
    var errorOccurred: bool
    var quitRequested: bool
    /** Every stage the page asked the worker to run, in order. */
    var commands: seq<int>
    /** The stored answers of the last question; they are never cleared. */
    var prompt: Option<Prompt>
    var promptVisible: bool
    var progress: Option<real>
    var icons: map<int, Icon>
    var details: map<int, string>

    /** Every stage has an icon and a detail label. */
    ghost predicate Valid()
      reads this
    {
      forall s :: IsStage(s) ==> s in icons && s in details
    }

    /** The page as constructed, before it is shown. */
    constructor ()
      ensures Valid()
      ensures !errorOccurred && !quitRequested && commands == [] && prompt == None && !promptVisible
      ensures progress == None
      ensures forall s :: IsStage(s) ==> icons[s] == NoIcon && details[s] == ""
    {
      errorOccurred, quitRequested := false, false;
      commands, prompt, promptVisible := [], None, false;
      progress := None;
      icons := map s | s in AllStages :: NoIcon;
      details := map s | s in AllStages :: "";
    }

    /** Showing the page starts the workflow with INIT. */
    method InitializePage()
      modifies this
      ensures commands == old(commands) + [STATE_INIT]
      ensures errorOccurred == old(errorOccurred) && prompt == old(prompt)
      ensures icons == old(icons) && details == old(details) && progress == old(progress)
      ensures promptVisible == old(promptVisible) && quitRequested == old(quitRequested)
    {
      commands := commands + [STATE_INIT];
    }

    /** The page may be left only after a run without error whose worker has stopped. */
    function ValidatePage(workerRunning: bool): (ok: bool)
      reads this
      ensures ok <==> !errorOccurred && !workerRunning
    {
      if errorOccurred then false
      else if workerRunning then false
      else true
    }

    /** The page is complete only once its worker has stopped. */
    function IsComplete(workerRunning: bool, baseComplete: bool): (ok: bool)
      ensures ok <==> !workerRunning && baseComplete
    {
      if workerRunning then false else baseComplete
    }

    /** Reacts to a progress event of the worker. */
    method OnStateProgress(state: int, p: real)
      requires Valid()
      modifies this
      ensures Valid()
      ensures progress == Some(OverallProgress(state, p))
      ensures commands == old(commands) + (match AutoCommand(state, p) case Some(n) => [n] case None => [])
      ensures prompt == (if PromptTargets(state, p).Some? then PromptTargets(state, p) else old(prompt))
      ensures promptVisible == (PromptTargets(state, p).Some? || old(promptVisible))
      ensures details == (match ProgressMessage(state, p)
                           case Some(m) => old(details)[state := m]
                           case None => old(details))
      ensures icons == (if ProgressMessage(state, p).Some?
                        then old(icons)[state := IconAfter(old(icons)[state], p)]
                        else old(icons))
      ensures errorOccurred == old(errorOccurred) && quitRequested == old(quitRequested)
    {
      progress := Some(OverallProgress(state, p));
      var message := ProgressMessage(state, p);
      if message.Some? {
        details := details[state := message.value];
        icons := icons[state := IconAfter(icons[state], p)];
      }
      var next := AutoCommand(state, p);
      if next.Some? {
        commands := commands + [next.value];
      }
      var question := PromptTargets(state, p);
      if question.Some? {
        prompt := question;
        promptVisible := true;
      }
    }

    /**
     * Reacts to a stage error: the failure flag is set for good, the stage
     * shows the error icon and text, the bar jumps to the end and the worker
     * is asked to quit.
     */
    method OnStateError(state: int, cause: Cause)
      requires Valid() && IsStage(state)
      modifies this
      ensures Valid()
      ensures errorOccurred && quitRequested
      ensures icons == old(icons)[state := ErrorIcon]
      ensures details == old(details)[state := "<b>" + ErrorHeadline(state) + "</b><br />" + cause]
      ensures progress == Some(100.0)
      ensures commands == old(commands) && prompt == old(prompt) && promptVisible == old(promptVisible)
    {
      errorOccurred := true;
      details := details[state := "<b>" + ErrorHeadline(state) + "</b><br />" + cause];
      icons := icons[state := IconAfter(icons[state], -1.0)];
      progress := Some(OverallProgress(STATE_DONE, DONE));
      quitRequested := true;
    }

    /** The user answers yes: the stored accept stage is run. */
    method OnPromptAccept()
      requires prompt.Some?
      modifies this
      ensures commands == old(commands) + [old(prompt).value.accept]
      ensures prompt == old(prompt) && !promptVisible
      ensures errorOccurred == old(errorOccurred) && quitRequested == old(quitRequested)
      ensures icons == old(icons) && details == old(details) && progress == old(progress)
    {
      commands := commands + [prompt.value.accept];
      promptVisible := false;
    }

    /** The user answers no: the stored reject stage is run. */
    method OnPromptReject()
      requires prompt.Some?
      modifies this
      ensures commands == old(commands) + [old(prompt).value.reject]
      ensures prompt == old(prompt) && !promptVisible
      ensures errorOccurred == old(errorOccurred) && quitRequested == old(quitRequested)
      ensures icons == old(icons) && details == old(details) && progress == old(progress)
    {
      commands := commands + [prompt.value.reject];
      promptVisible := false;
    }
  }

  // ----- Properties of the decision functions -----

  /** The overall percentage stays within the bar for every stage and phase. */
  lemma OverallProgressBounds(state: int, p: real)
    requires IsStage(state) && START <= p <= DONE
    ensures 0.0 <= OverallProgress(state, p) <= 100.0
  {
  }

  /** The overall percentage never goes back as (stage, phase) advances. */
  lemma OverallProgressMonotone(s1: int, p1: real, s2: int, p2: real)
    requires IsStage(s1) && IsStage(s2)
    requires START <= p1 <= DONE && START <= p2 <= DONE
    requires s1 < s2 || (s1 == s2 && p1 <= p2)
    ensures OverallProgress(s1, p1) <= OverallProgress(s2, p2)
  {
  }

  /** A finished stage and the next stage's start show the same percentage. */
  lemma OverallProgressContinues(state: int)
    ensures OverallProgress(state, DONE) == OverallProgress(state + 1, START)
  {
  }

  /** Finished stages show the ok icon, the error path the error icon, START nothing new. */
  lemma IconChoice(current: Icon, phase: real)
    ensures phase == DONE ==> IconAfter(current, phase) == OkIcon
    ensures phase < START ==> IconAfter(current, phase) == ErrorIcon
    ensures START <= phase < DONE ==> IconAfter(current, phase) == current
  {
  }

  // ----- The page's reaction to a whole stage run -----

  /** The stages the page runs by itself in response to one event. */
  function EventCommands(e: Event): seq<int> {
    if e.Error? then []
    else match AutoCommand(e.state, e.value)
      case Some(n) => [n]
      case None => []
  }

  /** The stages the page runs by itself in response to the events `r`. */
  function Reactions(r: seq<Event>): seq<int> {
    if r == [] then [] else Reactions(r[..|r| - 1]) + EventCommands(r[|r| - 1])
  }

  /** The question stored after the events `r`, starting from `current`. */
  function PromptAfter(current: Option<Prompt>, r: seq<Event>): Option<Prompt> {
    if r == [] then current
    else
      var before := PromptAfter(current, r[..|r| - 1]);
      var e := r[|r| - 1];
      if e.Progress? && PromptTargets(e.state, e.value).Some? then PromptTargets(e.state, e.value) else before
  }

  /** Events that are not DONE issue no stage and install no question. */
  lemma {:induction false} QuietEvents(current: Option<Prompt>, r: seq<Event>)
    requires forall i :: 0 <= i < |r| ==> r[i].Progress? && r[i].value < DONE
    ensures Reactions(r) == []
    ensures PromptAfter(current, r) == current
  {
    if r != [] {
      QuietEvents(current, r[..|r| - 1]);
    }
  }

  /**
   * Over one stage run, the page runs a stage by itself only when INIT or
   * TEST succeeded, and then exactly the next stage; START and intermediate
   * progress never run anything.
   */
  lemma RunReactions(env: Env, s: int)
    ensures Reactions(StageEvents(env, s)) ==
      if !StageFailed(env, s) && (s == STATE_INIT || s == STATE_TEST) then [s + 1] else []
  {
    var r := StageEvents(env, s);
    StageEndsInDoneOrError(env, s);
    QuietEvents(None, r[..|r| - 1]);
  }

  /**
   * Over one stage run, a question is installed only when LOAD or CREATE
   * succeeded; its yes runs the next stage and its no runs DONE. Otherwise
   * the stored question is left as it was.
   */
  lemma RunPrompt(env: Env, s: int, current: Option<Prompt>)
    ensures var after := PromptAfter(current, StageEvents(env, s));
      if !StageFailed(env, s) && (s == STATE_LOAD || s == STATE_CREATE)
      then after.Some? && after.value.accept == s + 1 && after.value.reject == STATE_DONE
      else after == current
  {
    var r := StageEvents(env, s);
    StageEndsInDoneOrError(env, s);
    QuietEvents(current, r[..|r| - 1]);
  }

  // ----- The whole workflow -----

  /** The cause carried by the error that ends a failed run of stage `s`. */
  function FailureCause(env: Env, s: int): Cause
    requires StageFailed(env, s)
  {
    if s == STATE_INIT then env.init.cause
    else if s == STATE_LOAD || s == STATE_TEST then
      if env.listing.Fail? then env.listing.cause
      else
        var loading := s == STATE_LOAD;
        var rs := Hooks(env.modules, loading);
        ModulesFailAt(env, loading);
        rs[FirstFailure(rs)].cause
    else if env.clear.Fail? then env.clear.cause
    else env.create.cause
  }

  /**
   * The last event of one run of stage `s`: DONE when no collaborator call
   * failed, the error otherwise.
   */
  function Terminal(env: Env, s: int): (e: Event)
    ensures e.state == s
    ensures e == Progress(s, DONE) <==> !StageFailed(env, s)
    ensures e.Error? <==> StageFailed(env, s)
  {
    if StageFailed(env, s) then Error(s, FailureCause(env, s)) else Progress(s, DONE)
  }

  /** `Terminal` is the event a stage run ends with. */
  lemma TerminalIsLast(env: Env, s: int)
    ensures var r := StageEvents(env, s); r[|r| - 1] == Terminal(env, s)
  {
    StageEndsInDoneOrError(env, s);
    if (s == STATE_LOAD || s == STATE_TEST) && env.listing.Ok? {
      ModuleStageShape(env, s);
    }
  }

  /**
   * The stage the page runs after it has seen `last`, the final event of a
   * run of stage `s`, with the answers left: the automatic next stage, or
   * the stage chosen by the next answer to the question that event
   * installed; nothing after an error, after DONE or when no answer is left.
   */
  function Advance(s: int, last: Event, answers: seq<bool>): (r: Option<(int, seq<bool>)>)
    requires IsStage(s) && last.state == s
    ensures r.Some? ==> s < r.value.0 && IsStage(r.value.0) && last == Progress(s, DONE)
  {
    if last.Error? then None
    else match AutoCommand(s, last.value)
      case Some(n) => Some((n, answers))
      case None =>
        match PromptTargets(s, last.value)
        case Some(q) =>
          if answers == [] then None
          else Some((if answers[0] then q.accept else q.reject, answers[1..]))
        case None => None
  }

  /** The transition table of the workflow, stage by stage. */
  lemma AdvanceTable(s: int, last: Event, answers: seq<bool>)
    requires IsStage(s) && last.state == s
    ensures last.Error? ==> Advance(s, last, answers) == None
    ensures last == Progress(s, DONE) && s == STATE_INIT ==> Advance(s, last, answers) == Some((STATE_LOAD, answers))
    ensures last == Progress(s, DONE) && s == STATE_TEST ==> Advance(s, last, answers) == Some((STATE_DONE, answers))
    ensures last == Progress(s, DONE) && (s == STATE_LOAD || s == STATE_CREATE) ==>
      Advance(s, last, answers) ==
        if answers == [] then None
        else Some((if answers[0] then s + 1 else STATE_DONE, answers[1..]))
    ensures s == STATE_DONE ==> Advance(s, last, answers) == None
  {
  }

  /**
   * The stages run in one workflow when every stage meets the collaborators
   * `env` and the user answers the questions in turn with `answers` (yes is
   * true); an unanswered question or an error ends it.
   */
  function Workflow(env: Env, s: int, answers: seq<bool>): seq<int>
    requires IsStage(s)
    decreases STATE_DONE - s
  {
    [s] +
    match Advance(s, Terminal(env, s), answers)
    case Some((n, rest)) => Workflow(env, n, rest)
    case None => []
  }

  /** One step of a workflow: the stage, then the workflow from the next stage. */
  lemma WorkflowStep(env: Env, s: int, answers: seq<bool>)
    requires IsStage(s)
    ensures Advance(s, Terminal(env, s), answers).None? ==> Workflow(env, s, answers) == [s]
    ensures Advance(s, Terminal(env, s), answers).Some? ==>
      var (n, rest) := Advance(s, Terminal(env, s), answers).value;
      Workflow(env, s, answers) == [s] + Workflow(env, n, rest)
  {
  }

  /**
   * A workflow runs stages in strictly increasing order, one at a time,
   * starting where it was started; only its last stage may fail.
   */
  lemma {:induction false} WorkflowOrdered(env: Env, s: int, answers: seq<bool>)
    requires IsStage(s)
    ensures var w := Workflow(env, s, answers);
      && w[0] == s
      && (forall i :: 0 <= i < |w| ==> IsStage(w[i]) && s <= w[i])
      && (forall i :: 0 < i < |w| ==> w[i - 1] < w[i])
      && (forall i :: 0 <= i < |w| - 1 ==> !StageFailed(env, w[i]))
    decreases STATE_DONE - s
  {
    match Advance(s, Terminal(env, s), answers)
    case Some((n, rest)) => WorkflowOrdered(env, n, rest);
    case None =>
  }

  /** An env whose every collaborator call returns. */
  predicate AllSucceed(env: Env) {
    && env.init.Ok? && env.listing.Ok? && env.clear.Ok? && env.create.Ok?
    && forall i :: 0 <= i < |env.modules| ==> env.modules[i].load.Ok? && env.modules[i].test.Ok?
  }

  /** When every collaborator call returns, every stage ends in DONE. */
  lemma NoStageFails(env: Env, s: int)
    requires AllSucceed(env)
    ensures !StageFailed(env, s)
    ensures Terminal(env, s) == Progress(s, DONE)
  {
    if s == STATE_LOAD || s == STATE_TEST {
      var loading := s == STATE_LOAD;
      ModulesFailAt(env, loading);
      FirstFailureIs(Hooks(env.modules, loading), |env.modules|);
    }
  }

  /** With everything succeeding and both questions answered yes, all five stages run in order. */
  lemma HappyPath(env: Env)
    requires AllSucceed(env)
    ensures Workflow(env, STATE_INIT, [true, true]) == [1, 2, 3, 4, 5]
  {
    assert Workflow(env, 5, []) == [5] by {
      AdvanceTable(5, Terminal(env, 5), []);
      WorkflowStep(env, 5, []);
    }
    assert Workflow(env, 4, []) == [4, 5] by {
      NoStageFails(env, 4);
      AdvanceTable(4, Terminal(env, 4), []);
      WorkflowStep(env, 4, []);
    }
    assert Workflow(env, 3, [true]) == [3, 4, 5] by {
      NoStageFails(env, 3);
      AdvanceTable(3, Terminal(env, 3), [true]);
      assert [true][1..] == [];
      WorkflowStep(env, 3, [true]);
    }
    assert Workflow(env, 2, [true, true]) == [2, 3, 4, 5] by {
      NoStageFails(env, 2);
      AdvanceTable(2, Terminal(env, 2), [true, true]);
      assert [true, true][1..] == [true];
      WorkflowStep(env, 2, [true, true]);
    }
    NoStageFails(env, 1);
    AdvanceTable(1, Terminal(env, 1), [true, true]);
    WorkflowStep(env, 1, [true, true]);
  }

  /** If connecting fails, INIT is the only stage of the workflow. */
  lemma ConnectFailureStops(env: Env, answers: seq<bool>)
    requires env.init.Fail?
    ensures Workflow(env, STATE_INIT, answers) == [STATE_INIT]
  {
    AdvanceTable(STATE_INIT, Terminal(env, STATE_INIT), answers);
    WorkflowStep(env, STATE_INIT, answers);
  }

  /** A successful LOAD whose question is answered no is followed by DONE alone. */
  lemma DeclineAfterLoad(env: Env, answers: seq<bool>)
    requires !StageFailed(env, STATE_LOAD)
    requires answers != [] && !answers[0]
    ensures Workflow(env, STATE_LOAD, answers) == [STATE_LOAD, STATE_DONE]
  {
    AdvanceTable(STATE_DONE, Terminal(env, STATE_DONE), answers[1..]);
    WorkflowStep(env, STATE_DONE, answers[1..]);
    AdvanceTable(STATE_LOAD, Terminal(env, STATE_LOAD), answers);
    WorkflowStep(env, STATE_LOAD, answers);
  }

  /** Declining to recreate the tables after LOAD goes straight to DONE. */
  lemma DeclineRecreate(env: Env, answers: seq<bool>)
    requires env.init.Ok? && !StageFailed(env, STATE_LOAD)
    requires answers != [] && !answers[0]
    ensures Workflow(env, STATE_INIT, answers) == [STATE_INIT, STATE_LOAD, STATE_DONE]
  {
    DeclineAfterLoad(env, answers);
    AdvanceTable(STATE_INIT, Terminal(env, STATE_INIT), answers);
    WorkflowStep(env, STATE_INIT, answers);
  }

  /** The workflow from DONE is DONE alone. */
  lemma DoneEndsWorkflow(env: Env)
    ensures forall answers :: Workflow(env, STATE_DONE, answers) == [STATE_DONE]
  {
    forall answers
      ensures Workflow(env, STATE_DONE, answers) == [STATE_DONE]
    {
      AdvanceTable(STATE_DONE, Terminal(env, STATE_DONE), answers);
      WorkflowStep(env, STATE_DONE, answers);
    }
  }

  /** A later stage of a workflow is reached through the next stage's workflow. */
  lemma ReachedThrough(env: Env, s: int, answers: seq<bool>, t: int)
    requires IsStage(s) && t != s && t in Workflow(env, s, answers)
    ensures var a := Advance(s, Terminal(env, s), answers);
      a.Some? && t in Workflow(env, a.value.0, a.value.1)
  {
    WorkflowStep(env, s, answers);
  }

  /** The destructive CREATE stage runs only after the first question was answered yes. */
  lemma CreateNeedsConsent(env: Env, answers: seq<bool>)
    requires STATE_CREATE in Workflow(env, STATE_INIT, answers)
    ensures answers != [] && answers[0]
  {
    DoneEndsWorkflow(env);
    ReachedThrough(env, STATE_INIT, answers, STATE_CREATE);
    AdvanceTable(STATE_INIT, Terminal(env, STATE_INIT), answers);
    ReachedThrough(env, STATE_LOAD, answers, STATE_CREATE);
    AdvanceTable(STATE_LOAD, Terminal(env, STATE_LOAD), answers);
  }

  /** The TEST stage runs only after both questions were answered yes. */
  lemma TestNeedsConsent(env: Env, answers: seq<bool>)
    requires STATE_TEST in Workflow(env, STATE_INIT, answers)
    ensures |answers| >= 2 && answers[0] && answers[1]
  {
    DoneEndsWorkflow(env);
    CreateNeedsConsent(env, answers);
    ReachedThrough(env, STATE_INIT, answers, STATE_TEST);
    AdvanceTable(STATE_INIT, Terminal(env, STATE_INIT), answers);
    ReachedThrough(env, STATE_LOAD, answers, STATE_TEST);
    AdvanceTable(STATE_LOAD, Terminal(env, STATE_LOAD), answers);
    var rest := answers[1..];
    ReachedThrough(env, STATE_CREATE, rest, STATE_TEST);
    AdvanceTable(STATE_CREATE, Terminal(env, STATE_CREATE), rest);
  }
}
