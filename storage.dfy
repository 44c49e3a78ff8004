/**
 * The persistence bookkeeping of the whiteboard, over an abstract key-value
 * store standing for the browser's `localStorage`. The JSON text under a
 * key is modelled by the value it parses to. A text that does not parse (or
 * is empty) is `Unparsable` and takes the path of the source's `catch` (or
 * of its falsy test); a text that parses to a value of none of the shapes
 * the module writes, and is not a list (`null`, a number, a string), is
 * `OtherValue`. The clock readings
 * (`new Date().toISOString()`) are parameters; so are, for the file
 * watcher, the results of the Electron calls.
 */
module Storage {
  import opened Types

  const StateKey := "canvas_state"
  const HistoryKey := "canvas_history"
  const BackupKey := "canvas_backup"
  const ConfigKey := "canvas_config"

  datatype StorageConfig = StorageConfig(autoSaveInterval: int, maxHistoryCount: int, backupEnabled: bool)

  /** A `Partial<StorageConfig>`: the keys a stored object or a caller supplies. */
  datatype PartialConfig = PartialConfig(
    autoSaveInterval: Option<int>,
    maxHistoryCount: Option<int>,
    backupEnabled: Option<bool>)

  /** What can sit under a key, as the source writes it. */
  datatype Stored =
    | ConfigEntry(config: PartialConfig)
    | HistoryEntry(history: seq<CanvasState>)
    | BackupEntry(state: CanvasState, timestamp: string)
    | StateEntry(savedState: CanvasState)
    | Unparsable
    | OtherValue

  /** Five seconds between automatic saves, ten history entries, backups on. */
  const DefaultConfig := StorageConfig(5000, 10, true)

  /** `{ ...base, ...partial }`: each supplied key overrides, each absent key keeps its value. */
  function Overlay(base: StorageConfig, partial: PartialConfig): (r: StorageConfig)
    ensures r.autoSaveInterval == partial.autoSaveInterval.GetOr(base.autoSaveInterval)
    ensures r.maxHistoryCount == partial.maxHistoryCount.GetOr(base.maxHistoryCount)
    ensures r.backupEnabled == partial.backupEnabled.GetOr(base.backupEnabled)
  {
    StorageConfig(
      partial.autoSaveInterval.GetOr(base.autoSaveInterval),
      partial.maxHistoryCount.GetOr(base.maxHistoryCount),
      partial.backupEnabled.GetOr(base.backupEnabled))
  }

  /** A whole config, as `JSON.stringify` of a `StorageConfig` writes it. */
  function Complete(config: StorageConfig): (p: PartialConfig)
    ensures p.autoSaveInterval.Some? && p.maxHistoryCount.Some? && p.backupEnabled.Some?
  {
    PartialConfig(Some(config.autoSaveInterval), Some(config.maxHistoryCount), Some(config.backupEnabled))
  }

  /**
   * A complete config overrides any base entirely, an empty one keeps the
   * base, and overlaying twice with the same keys is the same as once.
   */
  lemma OverlayLaws(base: StorageConfig, config: StorageConfig, partial: PartialConfig)
    ensures Overlay(base, Complete(config)) == config
    ensures Overlay(base, PartialConfig(None, None, None)) == base
    ensures Overlay(Overlay(base, partial), partial) == Overlay(base, partial)
  {
  }

  /**
   * The history list `saveToHistory` writes: `entry` put in front (`unshift`),
   * then the last element dropped (`pop`) once if the list is now longer
   * than `maxCount`.
   */
  function PushHistory(history: seq<CanvasState>, entry: CanvasState, maxCount: int): (r: seq<CanvasState>)
    ensures |r| == if |history| < maxCount then |history| + 1 else |history|
    ensures forall i :: 0 <= i < |r| ==> r[i] == ([entry] + history)[i]
  {
    var pushed := [entry] + history;
    if |pushed| > maxCount then pushed[..|pushed| - 1] else pushed
  }

  /**
   * The pushed entry comes first and the previous entries follow in their
   * order; below the limit nothing is lost, and at or above it exactly the
   * oldest entry is: the list never shrinks, so a list already longer than
   * the limit stays longer.
   */
  lemma {:induction false} PushHistoryOrder(history: seq<CanvasState>, entry: CanvasState, maxCount: int)
    ensures var r := PushHistory(history, entry, maxCount);
      && (|history| > 0 || maxCount >= 1 ==> r[0] == entry && r[1..] == history[..|r| - 1])
      && (|history| < maxCount ==> r == [entry] + history)
      && (|history| >= maxCount && |history| > 0 ==> r == [entry] + history[..|history| - 1])
      && |r| >= |history|
      && (|history| > maxCount ==> |r| > maxCount)
  {
    var r := PushHistory(history, entry, maxCount);
    if |r| > 0 {
      assert r[1..] == history[..|r| - 1] by {
        forall i | 0 <= i < |r| - 1 ensures r[1..][i] == history[i] {
          assert r[i + 1] == ([entry] + history)[i + 1];
        }
      }
    }
  }

  /** With a limit of 2, a third save on an empty history evicts the first one. */
  lemma HistoryEvictsOldest(s1: CanvasState, s2: CanvasState, s3: CanvasState)
    ensures PushHistory(PushHistory(PushHistory([], s1, 2), s2, 2), s3, 2) == [s3, s2]
  {
    assert PushHistory([], s1, 2) == [s1];
    assert PushHistory([s1], s2, 2) == [s2, s1];
  }

  /** A limit of zero or less empties a one-entry save on an empty history. */
  lemma HistoryNonPositiveLimit(entry: CanvasState, maxCount: int)
    requires maxCount <= 0
    ensures PushHistory([], entry, maxCount) == []
  {
  }

  /** The key-value store, with the reads and writes of the storage module. */
  class LocalStore {
    var items: map<string, Stored>

    constructor (initial: map<string, Stored>)
      ensures items == initial
    {
      items := initial;
    }

    /**
     * `loadConfig`: the defaults when nothing usable is stored, otherwise
     * the stored keys over the defaults.
     */
    function LoadConfig(): (r: StorageConfig)
      reads this
      ensures ConfigKey !in items || !items[ConfigKey].ConfigEntry? ==> r == DefaultConfig
      ensures ConfigKey in items && items[ConfigKey].ConfigEntry? ==>
                r == Overlay(DefaultConfig, items[ConfigKey].config)
    {
      if ConfigKey in items && items[ConfigKey].ConfigEntry? then Overlay(DefaultConfig, items[ConfigKey].config)
      else DefaultConfig
    }

    /** `loadHistory`: the stored list, or an empty one. */
    function LoadHistory(): (r: seq<CanvasState>)
      reads this
      ensures HistoryKey !in items ==> r == []
      ensures HistoryKey in items && items[HistoryKey].HistoryEntry? ==> r == items[HistoryKey].history
    {
      if HistoryKey in items && items[HistoryKey].HistoryEntry? then items[HistoryKey].history else []
    }

    /**
     * The history key is absent, holds a list, or holds text that does not
     * parse (each of which loads as a list); any other stored value parses
     * to something without `unshift` (an object, `null`, a number or a
     * string), and `saveToHistory` then fails before writing: `loadHistory`
     * (src/lib/storage.ts:42-49) returns that value and `history.unshift`
     * (src/lib/storage.ts:58) throws into the catch at lines 69-71.
     */
    predicate HistoryWritable()
      reads this
    {
      HistoryKey !in items || items[HistoryKey].HistoryEntry? || items[HistoryKey].Unparsable?
    }

    /** `restoreFromBackup`: the state of the stored backup, or `null`. */
    function RestoreFromBackup(): (r: Option<CanvasState>)
      reads this
      ensures BackupKey !in items ==> r == None
      ensures r.Some? <==> BackupKey in items && items[BackupKey].BackupEntry?
      ensures r.Some? ==> r.value == items[BackupKey].state
    {
      if BackupKey in items && items[BackupKey].BackupEntry? then Some(items[BackupKey].state) else None
    }

    /** `loadState`: the stored state, or `null`. */
    function LoadState(): (r: Option<CanvasState>)
      reads this
      ensures StateKey !in items ==> r == None
      ensures r.Some? <==> StateKey in items && items[StateKey].StateEntry?
      ensures r.Some? ==> r.value == items[StateKey].savedState
    {
      if StateKey in items && items[StateKey].StateEntry? then Some(items[StateKey].savedState) else None
    }

    /**
     * `saveConfig`: the current config overlaid with `config` is written in
     * full, so it is what the next load returns.
     */
    method SaveConfig(config: PartialConfig)
      modifies this
      ensures items == old(items)[ConfigKey := ConfigEntry(Complete(Overlay(old(LoadConfig()), config)))]
      ensures LoadConfig() == Overlay(old(LoadConfig()), config)
    {
      var currentConfig := LoadConfig();
      var newConfig := Overlay(currentConfig, config);
      items := items[ConfigKey := ConfigEntry(Complete(newConfig))];
      OverlayLaws(DefaultConfig, newConfig, config);
    }

    /**
     * `saveToHistory`: the state stamped with `now` goes in front of the
     * loaded history, at most one entry is evicted, and only the history
     * key changes. When the stored value is not a list the call fails and
     * the store is left as it was.
     */
    method SaveToHistory(state: CanvasState, now: string)
      modifies this
      ensures old(HistoryWritable()) ==> items == old(items)[HistoryKey := HistoryEntry(
                PushHistory(old(LoadHistory()), state.(lastModified := now), old(LoadConfig()).maxHistoryCount))]
      ensures old(HistoryWritable()) ==>
                LoadHistory() == PushHistory(old(LoadHistory()), state.(lastModified := now),
                                             old(LoadConfig()).maxHistoryCount)
      ensures !old(HistoryWritable()) ==> items == old(items)
    {
      var config := LoadConfig();
      var history := LoadHistory();
      if !HistoryWritable() {
        return;
      }
      history := [state.(lastModified := now)] + history;
      if |history| > config.maxHistoryCount {
        history := history[..|history| - 1];
      }
      items := items[HistoryKey := HistoryEntry(history)];
    }

    /**
     * `createBackup`: with backups disabled nothing changes; otherwise the
     * backup key holds the state and the time, and restoring yields the state.
     */
    method CreateBackup(state: CanvasState, now: string)
      modifies this
      ensures !old(LoadConfig()).backupEnabled ==> items == old(items)
      ensures old(LoadConfig()).backupEnabled ==> items == old(items)[BackupKey := BackupEntry(state, now)]
      ensures old(LoadConfig()).backupEnabled ==> RestoreFromBackup() == Some(state)
    {
      var config := LoadConfig();
      if !config.backupEnabled {
        return;
      }
      items := items[BackupKey := BackupEntry(state, now)];
    }

    /**
     * `saveState`: the state stamped with `stateTime` is written to the state
     * key; `saveToHistory` stamps it again, with `historyTime`; and when
     * backups are enabled the state-key value is backed up at `backupTime`.
     * The config is untouched, so both reads of it agree.
     */
    method SaveState(state: CanvasState, stateTime: string, historyTime: string, backupTime: string)
      modifies this
      ensures LoadState() == Some(state.(lastModified := stateTime))
      ensures old(HistoryWritable()) ==>
                LoadHistory() == PushHistory(old(LoadHistory()), state.(lastModified := historyTime),
                                             old(LoadConfig()).maxHistoryCount)
      ensures !old(HistoryWritable()) ==> HistoryKey in items && items[HistoryKey] == old(items)[HistoryKey]
      ensures LoadConfig() == old(LoadConfig())
      ensures old(LoadConfig()).backupEnabled ==>
                BackupKey in items && items[BackupKey] == BackupEntry(state.(lastModified := stateTime), backupTime)
      ensures !old(LoadConfig()).backupEnabled ==> RestoreFromBackup() == old(RestoreFromBackup())
      ensures forall k :: k in items <==> k in old(items) || k == StateKey || k == HistoryKey ||
                                          (k == BackupKey && old(LoadConfig()).backupEnabled)
      ensures forall k :: k in old(items) && k != StateKey && k != HistoryKey && k != BackupKey ==>
                items[k] == old(items)[k]
    {
      var config := LoadConfig();
      var currentState := state.(lastModified := stateTime);
      items := items[StateKey := StateEntry(currentState)];
      SaveToHistory(currentState, historyTime);
      if config.backupEnabled {
        CreateBackup(currentState, backupTime);
      }
    }
  }

  /**
   * The mtime guard of `watchFile`: the last modification time seen, which
   * starts at 0.
   */
  class FileWatcher {
    var lastSeen: int

    constructor ()
      ensures lastSeen == 0
    {
      lastSeen := 0;
    }

    /**
     * `checkFile`, given the outcome of the stats call and, for the case
     * where it is made, of the load: nothing happens unless the stats call
     * succeeds with an mtime strictly greater than the last one seen; then
     * the mtime is remembered and `onChange` receives a loaded state, if any.
     * The result is the state passed to `onChange`, or `None` when it is not
     * called.
     */
    method CheckFile(statsOk: bool, mtime: int, loaded: Option<CanvasState>)
      returns (changed: Option<CanvasState>)
      modifies this
      ensures lastSeen == if statsOk && mtime > old(lastSeen) then mtime else old(lastSeen)
      ensures lastSeen >= old(lastSeen)
      ensures changed.Some? <==> statsOk && mtime > old(lastSeen) && loaded.Some?
      ensures changed.Some? ==> changed == loaded
    {
      changed := None;
      if !statsOk {
        return;
      }
      if mtime > lastSeen {
        lastSeen := mtime;
        if loaded.Some? {
          changed := loaded;
        }
      }
    }
  }
}
