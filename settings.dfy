/**
 * The configuration the tray, the hotkey listener and the popup share.
 * Only its in-memory record is modelled; the JSON file behind it is the
 * ghost log of records written to it.
 */
module Settings {

  datatype ConfigRecord = ConfigRecord(spreadsheetId: string, sheetName: string, hotkey: string)

  /** The record used when no configuration file can be read. */
  const Default: ConfigRecord := ConfigRecord("", "Sheet1", "ctrl+alt+q")

  /** The record after the configuration form is submitted: new ID and sheet name, same hotkey. */
  function Reconfigured(r: ConfigRecord, spreadsheetId: string, sheetName: string): (r': ConfigRecord)
    ensures r' == ConfigRecord(spreadsheetId, sheetName, r.hotkey)
  {
    r.(spreadsheetId := spreadsheetId, sheetName := sheetName)
  }

  /** Reconfiguring twice keeps only the second form's values. */
  lemma ReconfiguredTwice(r: ConfigRecord, id1: string, name1: string, id2: string, name2: string)
    ensures Reconfigured(Reconfigured(r, id1, name1), id2, name2) == Reconfigured(r, id2, name2)
  {
  }

  /** The one configuration object, shared by pointer. */
  class Config {
    var spreadsheetId: string
    var sheetName: string
    var hotkey: string
    /** The records SaveConfig has tried to write, oldest first. */
    ghost var writes: seq<ConfigRecord>

    constructor (r: ConfigRecord)
      ensures Record() == r && writes == []
    {
      spreadsheetId, sheetName, hotkey := r.spreadsheetId, r.sheetName, r.hotkey;
      writes := [];
    }

    function Record(): ConfigRecord
      reads this
    {
      ConfigRecord(spreadsheetId, sheetName, hotkey)
    }

    /** SaveConfig: writes the current record; whether the write succeeds is not up to the caller. */
    method Save() returns (ok: bool)
      modifies this`writes
      ensures writes == old(writes) + [Record()]
    {
      writes := writes + [Record()];
      ok :| true;
    }
  }
}
