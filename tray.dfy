/**
 * The application shell: startup (which items and listeners exist), the
 * tray menu's event loop, the global hotkey and esc key, and the
 * configuration form's submit.  All of them drive the one Popup.
 */
module Tray {
  import opened Common
  import opened DateLayout
  import opened Form
  import opened Popup
  import Sheets
  import Settings
  import Hotkey

  /** The three tray menu items. */
  datatype TrayItem = AddEntry | Configure | Exit

  /** How many clicks the event loop takes: all of them up to and including the first Exit. */
  function Handled(clicks: seq<TrayItem>): (n: nat)
    ensures n <= |clicks|
    ensures Exit !in clicks ==> n == |clicks|
    ensures Exit in clicks ==> 0 < n && clicks[n - 1] == Exit && Exit !in clicks[..n - 1]
  {
    if clicks == [] then 0
    else if clicks[0] == Exit then 1
    else
      assert clicks[1..][..Handled(clicks[1..])] == clicks[..Handled(clicks[1..]) + 1][1..];
      1 + Handled(clicks[1..])
  }

  /**
   * The popup after the loop has handled the clicks; an Add click shows it
   * only with a service.  The texts and the guard are never touched, and
   * the popup ends up visible exactly when it was, or when an Add click
   * before Exit found a service and no confirmation open.
   */
  function TrayEffect(s: PopupState, serviceAvailable: bool, clicks: seq<TrayItem>): (r: PopupState)
    ensures r.entry == s.entry && r.escapeVisible == s.escapeVisible
    ensures r.windowVisible <==>
              s.windowVisible || (serviceAvailable && !s.escapeVisible && AddBeforeExit(clicks))
    decreases |clicks|
  {
    if clicks == [] || clicks[0] == Exit then s
    else
      var s' := if clicks[0] == AddEntry && serviceAvailable then ShowStep(s) else s;
      TrayEffect(s', serviceAvailable, clicks[1..])
  }

  /** Whether an Add click comes before the first Exit. */
  predicate AddBeforeExit(clicks: seq<TrayItem>) {
    clicks != [] && clicks[0] != Exit && (clicks[0] == AddEntry || AddBeforeExit(clicks[1..]))
  }

  /** Without a sheet service the tray never changes the popup. */
  lemma {:induction false} NoServiceNoShow(s: PopupState, clicks: seq<TrayItem>)
    ensures TrayEffect(s, false, clicks) == s
    decreases |clicks|
  {
    if clicks != [] && clicks[0] != Exit {
      NoServiceNoShow(s, clicks[1..]);
    }
  }

  /** With a service, any number of Add clicks before Exit amounts to one show. */
  lemma {:induction false} TrayEffectIsOneShow(s: PopupState, clicks: seq<TrayItem>)
    ensures TrayEffect(s, true, clicks) == if AddBeforeExit(clicks) then ShowStep(s) else s
    decreases |clicks|
  {
    if clicks != [] && clicks[0] != Exit {
      if clicks[0] == AddEntry {
        TrayEffectIsOneShow(ShowStep(s), clicks[1..]);
        ShowIdempotent(s);
      } else {
        TrayEffectIsOneShow(s, clicks[1..]);
      }
    }
  }

  /** Clicks after Exit are never handled. */
  lemma {:induction false} ExitEndsLoop(s: PopupState, available: bool, before: seq<TrayItem>, after: seq<TrayItem>)
    requires Exit !in before
    ensures Handled(before + [Exit] + after) == |before| + 1
    ensures TrayEffect(s, available, before + [Exit] + after) == TrayEffect(s, available, before)
    decreases |before|
  {
    if before != [] {
      var s' := if before[0] == AddEntry && available then ShowStep(s) else s;
      assert (before + [Exit] + after)[1..] == before[1..] + [Exit] + after;
      ExitEndsLoop(s', available, before[1..], after);
    } else {
      assert (before + [Exit] + after)[0] == Exit;
    }
  }

  /** The key names the hotkey listener is started with, if it is started at all. */
  function Listener(hotkey: string): (keys: Option<seq<string>>)
    ensures keys.None? <==> hotkey == ""
    ensures keys.Some? ==> Hotkey.Join(keys.value, Hotkey.Separator) == hotkey
                           && |keys.value| == Hotkey.Count(hotkey, Hotkey.Separator) + 1
  {
    if hotkey == "" then None else Some(Hotkey.Keys(hotkey))
  }

  /** The running program: main's globals, the tray menu and the keyboard hook. */
  class App {
    const cfg: Settings.Config
    const service: Sheets.SheetsService?
    const popup: Popup
    /** Whether the "Add Time Entry" item is enabled. */
    var addEnabled: bool
    /** The keys the hotkey listener was registered with; None when no listener started. */
    var listener: Option<seq<string>>
    /** Whether the tray event loop is still running. */
    var trayRunning: bool

    ghost predicate Valid()
      reads this, popup
    {
      popup.Valid() && popup.cfg == cfg && popup.service == service && addEnabled == (service != null)
    }

    /**
     * main and the start of startSystemTray: Add is disabled without a
     * service, the popup is built, and the hotkey listener is started
     * only for a non-empty hotkey.
     */
    constructor (cfg: Settings.Config, service: Sheets.SheetsService?, today: Date)
      ensures Valid() && fresh(popup)
      ensures this.cfg == cfg && this.service == service
      ensures addEnabled == (service != null)
      ensures listener == Listener(cfg.hotkey)
      ensures popup.State() == PopupState(ResetEntry(today), false, false)
      ensures trayRunning
    {
      this.cfg := cfg;
      this.service := service;
      addEnabled := service != null;
      popup := new Popup(cfg, service, today);
      listener := Listener(cfg.hotkey);
      trayRunning := true;
    }

    /** A click on "Add Time Entry": shows the popup only when the sheet service exists. */
    method AddClicked()
      requires Valid()
      modifies popup
      ensures Valid()
      ensures popup.View() == if service != null then Apply(old(popup.View()), ShowRequested) else old(popup.View())
      ensures !addEnabled ==> popup.State() == old(popup.State())
    {
      if service != null {
        popup.Show();
      }
    }

    /** A press of the hotkey: the same show as Add, with no check for a service. */
    method HotkeyPressed()
      requires Valid()
      modifies popup
      ensures Valid()
      ensures popup.View() == if listener.Some? then Apply(old(popup.View()), ShowRequested) else old(popup.View())
    {
      if listener.Some? {
        popup.Show();
      }
    }

    /**
     * A press of esc.  Its handler is registered with the same keyboard
     * hook, which only delivers events once the hotkey listener started it.
     */
    method EscKey() returns (asked: bool)
      requires Valid()
      modifies popup
      ensures Valid() && popup.openConfirms <= 1
      ensures asked ==> listener.Some?
      ensures popup.View() == if listener.Some? then Apply(old(popup.View()), EscPressed) else old(popup.View())
    {
      asked := false;
      if listener.Some? {
        asked := popup.Esc();
      }
    }

    /**
     * The configuration form's OnSubmit: the in-memory configuration takes
     * the two texts first and is then saved, so it keeps them when the
     * save fails.
     */
    method SubmitConfiguration(spreadsheetIdText: string, sheetNameText: string) returns (saved: bool)
      modifies cfg
      ensures cfg.Record() == Settings.Reconfigured(old(cfg.Record()), spreadsheetIdText, sheetNameText)
      ensures cfg.writes == old(cfg.writes) + [cfg.Record()]
    {
      cfg.spreadsheetId := spreadsheetIdText;
      cfg.sheetName := sheetNameText;
      saved := cfg.Save();
    }

    /** The tray's event loop over a sequence of clicks; Exit stops it. */
    method RunEventLoop(clicks: seq<TrayItem>) returns (handled: nat)
      requires Valid() && trayRunning
      modifies this`trayRunning, popup
      ensures Valid()
      ensures handled == Handled(clicks)
      ensures trayRunning <==> Exit !in clicks
      ensures popup.State() == TrayEffect(old(popup.State()), service != null, clicks)
      ensures popup.openConfirms == old(popup.openConfirms)
    {
      ghost var start := popup.State();
      var available := service != null;
      handled := 0;
      while handled < |clicks|
        invariant handled <= |clicks|
        invariant Valid() && trayRunning
        invariant Exit !in clicks[..handled]
        invariant Handled(clicks) == handled + Handled(clicks[handled..])
        invariant TrayEffect(start, available, clicks) == TrayEffect(popup.State(), available, clicks[handled..])
        invariant popup.openConfirms == old(popup.openConfirms)
      {
        var item := clicks[handled];
        LoopStep(popup.State(), available, clicks, handled);
        handled := handled + 1;
        if item == AddEntry {
          AddClicked();
        } else if item == Exit {
          trayRunning := false;
          return;
        }
        // Configure opens the configuration form; its submit is SubmitConfiguration.
      }
    }
  }

  /** One turn of the event loop, on the specification functions. */
  lemma LoopStep(s: PopupState, available: bool, clicks: seq<TrayItem>, i: nat)
    requires i < |clicks|
    ensures Handled(clicks[i..]) == if clicks[i] == Exit then 1 else 1 + Handled(clicks[i + 1..])
    ensures clicks[i] == Exit ==> TrayEffect(s, available, clicks[i..]) == s
    ensures clicks[i] != Exit ==>
              TrayEffect(s, available, clicks[i..])
              == TrayEffect(if clicks[i] == AddEntry && available then ShowStep(s) else s, available, clicks[i + 1..])
    ensures clicks[..i + 1] == clicks[..i] + [clicks[i]]
  {
    assert clicks[i..][1..] == clicks[i + 1..];
  }

  /**
   * Without a sheet service the Add item leaves a hidden popup hidden, but
   * the hotkey still shows it and Submit reaches AppendRow: the source then
   * dereferences the nil service, the model reports ServiceUnavailable
   * and keeps the popup as it was.
   */
  method NoServiceExample(app: App, numeric: string -> bool, today: Date)
    returns (ghost shownByAdd: bool, outcome: SubmitOutcome)
    requires app.Valid() && app.service == null && app.listener.Some?
    requires app.cfg.spreadsheetId != ""
    requires !app.popup.windowVisible && !app.popup.escapeVisible
    requires numeric("1")
    modifies app.popup
    ensures !shownByAdd
    ensures app.popup.windowVisible && !app.popup.escapeVisible
    ensures app.popup.Texts() == old(app.popup.Texts()).(hours := "1", description := "d", project := "p")
    ensures outcome == AppendFailed(Sheets.ServiceUnavailable)
    ensures Sheets.AppendRowAsWritten(false, app.cfg.spreadsheetId, app.cfg.sheetName,
                                      Row(app.popup.Texts())).NilDereference?
  {
    var p := app.popup;
    app.AddClicked();
    shownByAdd := p.windowVisible;
    app.HotkeyPressed();
    p.SetText(HoursField, "1");
    p.SetText(DescriptionField, "d");
    p.SetText(ProjectField, "p");
    outcome := p.Submit(numeric, today);
  }

  /**
   * Out of the box (no configuration file) the hotkey listener starts on
   * ctrl, alt and q, but every Submit is refused until a spreadsheet ID is
   * configured.
   */
  lemma DefaultConfiguration(serviceAvailable: bool, row: seq<string>)
    ensures Listener(Settings.Default.hotkey) == Some(["ctrl", "alt", "q"])
    ensures Sheets.PlanAppend(serviceAvailable, Settings.Default.spreadsheetId, Settings.Default.sheetName, row)
            == Failure(Sheets.EmptySpreadsheetId)
  {
    Hotkey.KeysExample();
  }
}
