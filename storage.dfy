/**
 * The prompt and settings store (src/utils/storage.ts) over two abstract
 * chrome.storage areas, `local` and `sync`. Each call into chrome.storage may
 * fail; which calls succeed is given to every operation as a parameter.
 */
module Storage {
  import opened Wrappers

  /** A saved prompt snippet. */
  datatype Prompt = Prompt(id: string, name: string, text: string, category: string, color: string, icon: string)

  /** The JSON values a settings record holds. */
  datatype JsonValue = JNull | JBool(b: bool) | JString(s: string)

  /** A settings record: the keys present in it and their values. */
  type UserSettings = map<string, JsonValue>

  /** The two top-level entries the extension keeps. */
  datatype StorageData = StorageData(prompts: seq<Prompt>, userSettings: UserSettings)

  /**
   * One storage area, restricted to the two keys the extension reads.
   * `None` is an absent key (or a falsy stored value); an empty prompt list
   * or an empty settings object is present.
   */
  datatype Area = Area(prompts: Option<seq<Prompt>>, userSettings: Option<UserSettings>)

  const EmptyArea := Area(None, None)

  /** The default settings: no API key, no model, debug off, prompt icons shown. */
  const DefaultUserSettings: UserSettings :=
    map["openAIApiKey" := JNull, "selectedModelId" := JNull,
        "debugModeEnabled" := JBool(false), "showPromptIcons" := JBool(true)]

  /** What storage holds when nothing has been saved. */
  const DefaultData := StorageData([], DefaultUserSettings)

  /** Both keys hold a truthy value. */
  predicate Complete(a: Area)
  {
    a.prompts.Some? && a.userSettings.Some?
  }

  function AreaData(a: Area): StorageData
    requires Complete(a)
  {
    StorageData(a.prompts.value, a.userSettings.value)
  }

  /** The area after `local.set(data)` with both keys. */
  function Written(d: StorageData): (r: Area)
    ensures Complete(r) && AreaData(r) == d
  {
    Area(Some(d.prompts), Some(d.userSettings))
  }

  /**
   * `{...defaultUserSettings, ...(stored || {})}`: every default key is present,
   * and a key stored by the user overrides its default.
   */
  function MergeSettings(stored: Option<UserSettings>): (r: UserSettings)
    ensures stored.None? ==> r == DefaultUserSettings
    ensures stored.Some? ==> r.Keys == DefaultUserSettings.Keys + stored.value.Keys
    ensures stored.Some? ==> forall k :: k in stored.value ==> r[k] == stored.value[k]
    ensures forall k :: k in DefaultUserSettings && (stored.None? || k !in stored.value) ==> r[k] == DefaultUserSettings[k]
  {
    if stored.Some? then DefaultUserSettings + stored.value else DefaultUserSettings
  }

  /** Which chrome.storage calls of getStorageData succeed. */
  datatype ReadIo = ReadIo(localRead: bool, syncRead: bool, copy: bool)

  /** Where getStorageData's answer came from. */
  datatype Source = FromLocal | FromSync | FromDefaults

  /** getStorageData's answer and the local area it leaves behind. */
  datatype Fetched = Fetched(source: Source, data: StorageData, local: Area)

  /**
   * getStorageData: the local data when both keys are there; otherwise the
   * sync data when both keys are there and copying it into local succeeds;
   * otherwise the module's default object `fallback`.
   */
  function Fetch(local: Area, sync: Area, fallback: StorageData, io: ReadIo): (r: Fetched)
    ensures r.source == FromLocal <==> io.localRead && Complete(local)
    ensures r.source == FromLocal ==> r.data == AreaData(local) && r.local == local
    ensures r.source == FromSync <==> !(io.localRead && Complete(local)) && io.syncRead && Complete(sync) && io.copy
    ensures r.source == FromSync ==> r.data == AreaData(sync) && r.local == sync
    ensures r.source == FromDefaults ==> r.data == fallback && r.local == local
  {
    if io.localRead && Complete(local) then Fetched(FromLocal, AreaData(local), local)
    else if io.syncRead && Complete(sync) && io.copy then Fetched(FromSync, AreaData(sync), sync)
    else Fetched(FromDefaults, fallback, local)
  }

  /** savePrompts' outcome: whether it succeeded, the local area, and the module's default object. */
  datatype Saved = Saved(ok: bool, local: Area, fallback: StorageData)

  /**
   * savePrompts: reads the data, replaces its prompt list and writes both keys
   * back. When the read fell back to the module's default object, that object
   * itself is what gets its prompt list replaced.
   */
  function SaveEffect(local: Area, sync: Area, fallback: StorageData, prompts: seq<Prompt>, io: ReadIo, write: bool): (r: Saved)
    ensures r.ok == write
    ensures var f := Fetch(local, sync, fallback, io);
      && (write ==> r.local == Written(StorageData(prompts, f.data.userSettings)))
      && (!write ==> r.local == f.local)
      && r.fallback == (if f.source == FromDefaults then fallback.(prompts := prompts) else fallback)
  {
    var f := Fetch(local, sync, fallback, io);
    var data := f.data.(prompts := prompts);
    Saved(write, if write then Written(data) else f.local,
          if f.source == FromDefaults then data else fallback)
  }

  /** After a successful save the next read of the local area returns the saved list. */
  lemma SaveThenRead(local: Area, sync: Area, fallback: StorageData, prompts: seq<Prompt>, io: ReadIo, io': ReadIo)
    requires io'.localRead
    ensures var s := SaveEffect(local, sync, fallback, prompts, io, true);
      Fetch(s.local, sync, s.fallback, io').data.prompts == prompts
  {
  }

  /**
   * On a store whose local area already holds both keys, saving prompts keeps
   * the stored settings.
   */
  lemma SaveKeepsSettings(local: Area, sync: Area, fallback: StorageData, prompts: seq<Prompt>, io: ReadIo)
    requires Complete(local) && io.localRead
    ensures SaveEffect(local, sync, fallback, prompts, io, true).local.userSettings == local.userSettings
  {
  }

  /**
   * Copying from sync is stable: once getStorageData answered from local or
   * sync, a later successful local read returns the same data.
   */
  lemma FetchStable(local: Area, sync: Area, fallback: StorageData, io: ReadIo, io': ReadIo)
    requires io'.localRead
    requires Fetch(local, sync, fallback, io).source != FromDefaults
    ensures var f := Fetch(local, sync, fallback, io);
      Fetch(f.local, sync, fallback, io') == Fetched(FromLocal, f.data, f.local)
  {
  }

  /**
   * initializeStorage as written: getStorageData always answers with both
   * fields present, so the test for a missing field never holds and the
   * defaults are never written; only getStorageData's own copy from sync
   * changes the local area.
   */
  function InitEffect(local: Area, sync: Area, fallback: StorageData, io: ReadIo): (r: Area)
    ensures r == local || r == sync
  {
    Fetch(local, sync, fallback, io).local
  }

  /** On a fresh install (both areas empty) initializeStorage leaves local empty. */
  lemma InitLeavesFreshStoreEmpty(io: ReadIo)
    ensures InitEffect(EmptyArea, EmptyArea, DefaultData, io) == EmptyArea
  {
  }

  /**
   * The consequence on a fresh install: an API key saved before the first
   * prompt is overwritten with the default (null) by that first prompt save.
   */
  lemma FirstSaveDropsSettingsAfterInit(io: ReadIo, key: string, p: Prompt)
    requires io.localRead
    ensures var installed := InitEffect(EmptyArea, EmptyArea, DefaultData, io);
      var withKey := installed.(userSettings := Some(map["openAIApiKey" := JString(key)]));
      var saved := SaveEffect(withKey, EmptyArea, DefaultData, [p], io, true);
      saved.local.userSettings == Some(DefaultUserSettings) && DefaultUserSettings["openAIApiKey"] == JNull
  {
  }

  /**
   * initializeStorage as intended: when, after getStorageData, the local area
   * still lacks one of the keys, write the defaults (the write succeeds when
   * `write` holds).
   */
  function InitEffectIntended(local: Area, sync: Area, fallback: StorageData, io: ReadIo, write: bool): (r: Area)
    ensures write ==> Complete(r)
    ensures write && !Complete(local) && !(io.syncRead && Complete(sync) && io.copy) ==> r == Written(fallback)
    ensures !write ==> r == InitEffect(local, sync, fallback, io)
    ensures io.localRead && Complete(local) ==> r == local
    ensures Complete(InitEffect(local, sync, fallback, io)) ==> r == InitEffect(local, sync, fallback, io)
  {
    var after := Fetch(local, sync, fallback, io).local;
    if !Complete(after) && write then Written(fallback) else after
  }

  /**
   * With the intended initialisation, an API key saved before the first
   * prompt survives that first prompt save.
   */
  lemma FirstSaveKeepsSettingsAfterIntendedInit(io: ReadIo, key: string, p: Prompt)
    requires io.localRead
    ensures var installed := InitEffectIntended(EmptyArea, EmptyArea, DefaultData, io, true);
      var settings := map["openAIApiKey" := JString(key)];
      var withKey := installed.(userSettings := Some(settings));
      SaveEffect(withKey, EmptyArea, DefaultData, [p], io, true).local.userSettings == Some(settings)
  {
    var installed := InitEffectIntended(EmptyArea, EmptyArea, DefaultData, io, true);
    assert Complete(installed);
    SaveKeepsSettings(installed.(userSettings := Some(map["openAIApiKey" := JString(key)])), EmptyArea, DefaultData, [p], io);
  }

  /** The chrome.storage areas and the storage module's own default object. */
  class ChromeStorage {
    var local: Area
    var sync: Area
    /**
     * The module-level `defaultData` object. getStorageData returns this very
     * object when it falls back, so savePrompts' assignment to `data.prompts`
     * alters it.
     */
    var defaultData: StorageData

    constructor (local: Area, sync: Area)
      ensures this.local == local && this.sync == sync && defaultData == DefaultData
    {
      this.local := local;
      this.sync := sync;
      defaultData := DefaultData;
    }

    /** getStorageData; a failed read or a failed copy is caught and falls through. */
    method GetStorageData(io: ReadIo) returns (data: StorageData, source: Source)
      modifies this`local
      ensures Fetched(source, data, local) == Fetch(old(local), sync, defaultData, io)
    {
      if io.localRead && Complete(local) {
        return AreaData(local), FromLocal;
      }
      if io.syncRead && Complete(sync) {
        if io.copy {
          local := sync;
          return AreaData(sync), FromSync;
        }
      }
      return defaultData, FromDefaults;
    }

    /** setStorageData: writes both keys; a failed write is reported as `false` (the thrown error). */
    method SetStorageData(data: StorageData, write: bool) returns (ok: bool)
      modifies this`local
      ensures ok == write
      ensures local == if write then Written(data) else old(local)
    {
      if write {
        local := Written(data);
      }
      ok := write;
    }

    /** savePrompts; `false` is the rejected promise. */
    method SavePrompts(prompts: seq<Prompt>, io: ReadIo, write: bool) returns (ok: bool)
      modifies this`local, this`defaultData
      ensures Saved(ok, local, defaultData) == SaveEffect(old(local), sync, old(defaultData), prompts, io, write)
    {
      var data, source := GetStorageData(io);
      data := data.(prompts := prompts);
      if source == FromDefaults {
        defaultData := data;
      }
      ok := SetStorageData(data, write);
    }

    /** saveUserSettings: writes the settings key alone. */
    method SaveUserSettings(settings: UserSettings, write: bool) returns (ok: bool)
      modifies this`local
      ensures ok == write
      ensures local == if write then old(local).(userSettings := Some(settings)) else old(local)
    {
      if write {
        local := local.(userSettings := Some(settings));
      }
      ok := write;
    }

    /**
     * getPrompts: the prompt list getStorageData answers with. (Its `|| []`
     * and its error branch never apply: the answer always holds a list.)
     */
    method GetPrompts(io: ReadIo) returns (prompts: seq<Prompt>)
      modifies this`local
      ensures prompts == Fetch(old(local), sync, defaultData, io).data.prompts
      ensures local == Fetch(old(local), sync, defaultData, io).local
    {
      var data, _ := GetStorageData(io);
      prompts := data.prompts;
    }

    /** getUserSettings: local settings merged over the defaults; the defaults alone on a read error. */
    method GetUserSettings(read: bool) returns (settings: UserSettings)
      ensures !read ==> settings == DefaultUserSettings
      ensures read ==> settings == MergeSettings(local.userSettings)
    {
      if !read {
        return DefaultUserSettings;
      }
      settings := MergeSettings(local.userSettings);
    }

    /**
     * initializeStorage as written. Both fields of getStorageData's answer are
     * always present, so the branch that writes the defaults (and the error
     * branch, getStorageData never throwing) is never taken.
     */
    method InitializeStorage(io: ReadIo)
      modifies this`local
      ensures local == InitEffect(old(local), sync, defaultData, io)
    {
      var _, _ := GetStorageData(io);
    }

    /** initializeStorage as intended: write the defaults when local still lacks a key. */
    method InitializeStorageIntended(io: ReadIo, write: bool)
      modifies this`local
      ensures local == InitEffectIntended(old(local), sync, defaultData, io, write)
    {
      var _, _ := GetStorageData(io);
      if !Complete(local) {
        var _ := SetStorageData(defaultData, write);
      }
    }
  }
}
