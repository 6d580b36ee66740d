/**
 * The time-entry popup controller: the seven entry texts, whether the
 * popup window is shown, and the guard that keeps a second "Exit"
 * confirmation from opening while one is open.
 *
 * Each transition is first a function on PopupState; the Popup class
 * holds the same state in fields and each of its methods is proved to
 * perform the matching function.  Every callback runs as one atomic step.
 */
module Popup {
  import opened Common
  import opened DateLayout
  import opened Form
  import Sheets
  import Settings

  datatype PopupState = PopupState(entry: Entry, windowVisible: bool, escapeVisible: bool)

  /** The entry as resetPopup leaves it: today's date, every other field empty. */
  function ResetEntry(today: Date): (e: Entry)
    ensures e.date == Format(today)
    ensures forall f :: f != DateField ==> FieldText(e, f) == ""
  {
    Entry(Format(today), "", "", "", "", "", "")
  }

  /** The date resetPopup writes passes the date validator. */
  lemma ResetDateIsValid(today: Date)
    requires IsCalendarDay(today) && today.year < 10000
    ensures DateValidator(ResetEntry(today).date) == None
  {
    FormatThenParse(today);
  }

  /** A freshly reset entry does not pass Submit's checks: hours is empty. */
  lemma ResetEntryIsNotSubmittable(today: Date, numeric: string -> bool)
    ensures SubmitCheck(ResetEntry(today), numeric).Some?
  {
  }

  /** ShowEntryPopup: shows the popup unless an exit confirmation is open; the fields are kept. */
  function ShowStep(s: PopupState): (r: PopupState)
    ensures r.entry == s.entry && r.escapeVisible == s.escapeVisible
    ensures r.windowVisible <==> s.windowVisible || !s.escapeVisible
  {
    if !s.escapeVisible then s.(windowVisible := true) else s
  }

  /** resetPopup: today's date, empty fields, popup hidden; the guard is not touched. */
  function ResetStep(s: PopupState, today: Date): (r: PopupState)
    ensures r == PopupState(ResetEntry(today), false, s.escapeVisible)
  {
    s.(entry := ResetEntry(today), windowVisible := false)
  }

  /** The esc key: asks for confirmation only while the popup is shown and none is open. */
  function EscStep(s: PopupState): (r: PopupState)
    ensures r.entry == s.entry && r.windowVisible == s.windowVisible
    ensures r.escapeVisible <==> s.escapeVisible || s.windowVisible
    ensures OpensConfirm(s) <==> !s.escapeVisible && r.escapeVisible
  {
    if OpensConfirm(s) then s.(escapeVisible := true) else s
  }

  /** Whether the esc key opens a confirmation in this state. */
  predicate OpensConfirm(s: PopupState) {
    s.windowVisible && !s.escapeVisible
  }

  /** The confirmation's answer: confirming resets and hides; either answer clears the guard. */
  function AnswerStep(s: PopupState, confirmed: bool, today: Date): (r: PopupState)
    ensures !r.escapeVisible
    ensures confirmed ==> r.entry == ResetEntry(today) && !r.windowVisible
    ensures !confirmed ==> r.entry == s.entry && r.windowVisible == s.windowVisible
  {
    var t := if confirmed then ResetStep(s, today) else s;
    t.(escapeVisible := false)
  }

  /** After the append: reset on success, everything kept on failure. */
  function AfterAppend(s: PopupState, appended: bool, today: Date): (r: PopupState)
    ensures appended ==> r == ResetStep(s, today)
    ensures !appended ==> r == s
  {
    if appended then ResetStep(s, today) else s
  }

  /** Showing twice is showing once. */
  lemma ShowIdempotent(s: PopupState)
    ensures ShowStep(ShowStep(s)) == ShowStep(s)
  {
  }

  /** Showing an already visible popup changes nothing. */
  lemma ShowWhenVisible(s: PopupState)
    requires s.windowVisible
    ensures ShowStep(s) == s
  {
  }

  /** A declined confirmation leaves the popup as it was before esc. */
  lemma EscThenDecline(s: PopupState, today: Date)
    requires OpensConfirm(s)
    ensures AnswerStep(EscStep(s), false, today) == s
  {
  }

  /** A confirmed exit leaves the popup as a successful submit does. */
  lemma EscThenConfirm(s: PopupState, today: Date)
    requires OpensConfirm(s)
    ensures AnswerStep(EscStep(s), true, today) == AfterAppend(s, true, today)
  {
  }

  /** The events the popup reacts to. */
  datatype UiEvent =
    | ShowRequested                              // tray Add item or hotkey
    | EscPressed
    | Answered(confirmed: bool, today: Date)     // the open confirmation is answered
    | SubmitFinished(appended: bool, today: Date) // Submit ran; appended is whether a row was added

  /** The popup together with the number of exit confirmations on screen. */
  datatype Screen = Screen(popup: PopupState, openConfirms: nat)

  /** The single-confirmation invariant: the guard is set exactly while one confirmation is open. */
  predicate GuardTracksConfirms(w: Screen) {
    w.openConfirms == if w.popup.escapeVisible then 1 else 0
  }

  /** An answer can only come from a confirmation on screen. */
  predicate Enabled(w: Screen, e: UiEvent) {
    e.Answered? ==> w.openConfirms > 0
  }

  /**
   * One event.  Only esc raises the guard, and a new confirmation opens
   * only on esc while the guard is down; only an answer closes one.
   */
  function Apply(w: Screen, e: UiEvent): (r: Screen)
    requires Enabled(w, e)
    ensures r.popup.escapeVisible && !w.popup.escapeVisible ==> e.EscPressed?
    ensures r.openConfirms > w.openConfirms ==> e.EscPressed? && !w.popup.escapeVisible && r.openConfirms == w.openConfirms + 1
    ensures r.openConfirms < w.openConfirms ==> e.Answered? && !r.popup.escapeVisible
  {
    match e
    case ShowRequested => w.(popup := ShowStep(w.popup))
    case EscPressed =>
      if OpensConfirm(w.popup) then Screen(EscStep(w.popup), w.openConfirms + 1) else w
    case Answered(confirmed, today) => Screen(AnswerStep(w.popup, confirmed, today), w.openConfirms - 1)
    case SubmitFinished(appended, today) => w.(popup := AfterAppend(w.popup, appended, today))
  }

  /** The screen after a sequence of events, or None if an answer arrives with no confirmation open. */
  function Run(w: Screen, events: seq<UiEvent>): (r: Option<Screen>)
    ensures (forall i :: 0 <= i < |events| ==> !events[i].Answered?) ==> r.Some?
    decreases |events|
  {
    if events == [] then Some(w)
    else if !Enabled(w, events[0]) then None
    else Run(Apply(w, events[0]), events[1..])
  }

  lemma StepKeepsGuard(w: Screen, e: UiEvent)
    requires GuardTracksConfirms(w) && Enabled(w, e)
    ensures GuardTracksConfirms(Apply(w, e))
  {
  }

  /** Along every run at most one exit confirmation is ever open. */
  lemma {:induction false} RunKeepsSingleConfirm(w: Screen, events: seq<UiEvent>)
    requires GuardTracksConfirms(w)
    ensures Run(w, events).Some? ==>
              GuardTracksConfirms(Run(w, events).value) && Run(w, events).value.openConfirms <= 1
    decreases |events|
  {
    if events != [] && Enabled(w, events[0]) {
      StepKeepsGuard(w, events[0]);
      RunKeepsSingleConfirm(Apply(w, events[0]), events[1..]);
    }
  }

  /** Outcome of the Submit button. */
  datatype SubmitOutcome =
    | Invalid(reason: SubmitError)        // Submit's checks refused; nothing sent
    | AppendFailed(error: Sheets.AppendError) // AppendRow reported an error
    | Submitted                           // the row was appended

  /** The popup window and its seven entry widgets. */
  class Popup {
    const cfg: Settings.Config
    const service: Sheets.SheetsService?

    var date: string
    var hours: string
    var description: string
    var project: string
    var branch: string
    var commitStart: string
    var commitEnd: string
    var windowVisible: bool
    var escapeVisible: bool
    /** Exit confirmations on screen. */
    ghost var openConfirms: nat

    ghost predicate Valid()
      reads this
    {
      GuardTracksConfirms(View())
    }

    function Texts(): Entry
      reads this
    {
      Entry(date, hours, description, project, branch, commitStart, commitEnd)
    }

    function State(): PopupState
      reads this
    {
      PopupState(Texts(), windowVisible, escapeVisible)
    }

    ghost function View(): Screen
      reads this
    {
      Screen(State(), openConfirms)
    }

    /** BuildPopup: the date field holds today, the rest are empty, and the window is hidden. */
    constructor (cfg: Settings.Config, service: Sheets.SheetsService?, today: Date)
      ensures Valid()
      ensures this.cfg == cfg && this.service == service
      ensures State() == PopupState(ResetEntry(today), false, false) && openConfirms == 0
    {
      this.cfg := cfg;
      this.service := service;
      date := Format(today);
      hours, description, project, branch, commitStart, commitEnd := "", "", "", "", "", "";
      windowVisible, escapeVisible := false, false;
      openConfirms := 0;
    }

    /** The user types into one entry widget. */
    method SetText(f: Field, text: string)
      modifies this
      ensures Texts() == WithText(old(Texts()), f, text)
      ensures windowVisible == old(windowVisible) && escapeVisible == old(escapeVisible)
      ensures openConfirms == old(openConfirms)
    {
      match f
      case DateField => date := text;
      case HoursField => hours := text;
      case DescriptionField => description := text;
      case ProjectField => project := text;
      case BranchField => branch := text;
      case CommitStartField => commitStart := text;
      case CommitEndField => commitEnd := text;
    }

    /** ShowEntryPopup. */
    method Show()
      requires Valid()
      modifies this
      ensures Valid()
      ensures View() == Apply(old(View()), ShowRequested)
    {
      if !escapeVisible {
        windowVisible := true;
      }
    }

    /** resetPopup. */
    method Reset(today: Date)
      requires Valid()
      modifies this
      ensures Valid()
      ensures State() == ResetStep(old(State()), today) && openConfirms == old(openConfirms)
    {
      date := Format(today);
      hours := "";
      description := "";
      project := "";
      branch := "";
      commitStart := "";
      commitEnd := "";
      windowVisible := false;
    }

    /** The esc key handler: opens a confirmation when the popup is shown and none is open. */
    method Esc() returns (asked: bool)
      requires Valid()
      modifies this
      ensures Valid() && openConfirms <= 1
      ensures asked <==> OpensConfirm(old(State()))
      ensures View() == Apply(old(View()), EscPressed)
    {
      asked := windowVisible && !escapeVisible;
      if asked {
        escapeVisible := true;
        openConfirms := openConfirms + 1;
      }
    }

    /** The confirmation's callback. */
    method Answer(confirmed: bool, today: Date)
      requires Valid() && openConfirms > 0
      modifies this
      ensures Valid() && openConfirms == 0
      ensures View() == Apply(old(View()), Answered(confirmed, today))
    {
      if confirmed {
        Reset(today);
        windowVisible := false;
      }
      escapeVisible := false;
      openConfirms := openConfirms - 1;
    }

    /**
     * The Submit button: its own checks (the date is not one of them),
     * then one AppendRow with the seven texts in column order, then a
     * reset on success; on any failure the popup is left as it was.
     */
    method Submit(numeric: string -> bool, today: Date) returns (outcome: SubmitOutcome)
      requires Valid()
      modifies this, service
      ensures Valid() && openConfirms == old(openConfirms)
      ensures var check := SubmitCheck(old(Texts()), numeric);
              check.Some? ==> && outcome == Invalid(check.value)
                              && State() == old(State())
                              && (service != null ==> service.log == old(service.log))
      ensures var plan := Sheets.PlanAppend(service != null, cfg.spreadsheetId, cfg.sheetName, Row(old(Texts())));
              SubmitCheck(old(Texts()), numeric) == None ==>
                && (plan.Failure? ==> outcome == AppendFailed(plan.error))
                && (service != null && plan.Failure? ==> service.log == old(service.log))
                && (plan.Success? ==> service.log == old(service.log) + [plan.value])
                && (plan.Success? ==> outcome == Submitted || outcome == AppendFailed(Sheets.Remote))
      ensures !outcome.Invalid? ==> State() == AfterAppend(old(State()), outcome == Submitted, today)
    {
      var check := SubmitCheck(Texts(), numeric);
      if check.Some? {
        return Invalid(check.value);
      }
      var row := Row(Texts());
      var err := Sheets.AppendRow(service, cfg.spreadsheetId, cfg.sheetName, row);
      if err.Some? {
        return AppendFailed(err.value);
      }
      Reset(today);
      outcome := Submitted;
    }
  }

  lemma ExamplePlan(row: seq<string>)
    ensures Sheets.PlanAppend(true, "sheet-1", "Sheet1", row)
            == Success(Sheets.AppendRequest("sheet-1", "Sheet1!A:G", [row], "USER_ENTERED"))
  {
    Sheets.RangeForExample();
  }

  /**
   * The entry of the documented example: one row of the seven texts in
   * column order, appended to "Sheet1!A:G"; afterwards the popup is reset
   * and hidden if the service accepted it, and unchanged if not.
   */
  method SubmitExample(p: Popup, numeric: string -> bool, today: Date) returns (outcome: SubmitOutcome)
    requires p.Valid() && p.service != null && p.service.log == []
    requires p.cfg.spreadsheetId == "sheet-1" && p.cfg.sheetName == "Sheet1"
    requires p.Texts() == Entry("01/02/2025", "3.5", "Fix bug", "repoA", "main", "abc123", "def456")
    requires numeric("3.5")
    modifies p, p.service
    ensures p.service.log == [Sheets.AppendRequest("sheet-1", "Sheet1!A:G",
                                [["01/02/2025", "3.5", "Fix bug", "repoA", "main", "abc123", "def456"]],
                                "USER_ENTERED")]
    ensures outcome == Submitted || outcome == AppendFailed(Sheets.Remote)
    ensures outcome == Submitted ==> p.State() == PopupState(ResetEntry(today), false, old(p.escapeVisible))
    ensures outcome != Submitted ==> p.State() == old(p.State())
  {
    var row := ["01/02/2025", "3.5", "Fix bug", "repoA", "main", "abc123", "def456"];
    assert Row(p.Texts()) == row;
    ExamplePlan(row);
    outcome := p.Submit(numeric, today);
  }
}
