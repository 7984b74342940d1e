/** The backup/restore pipeline: a versioned snapshot of the gallery, the
    watermark assets and the watermark settings; tolerant validation of an
    imported document; and the destructive, ordered restore into the two
    stores (the string-keyed settings store and the content store with its
    two collections). */
module Backup {
  import opened Wrappers
  import opened Json

  /** Schema version written by every export. */
  const BACKUP_VERSION: int := 1

  /** Settings-store key of the watermark settings record. */
  const SETTINGS_KEY: string := "nexus_watermark_settings"

  /** Settings-store key under which older versions kept the watermarks. */
  const LEGACY_WATERMARKS_KEY: string := "nexus_watermarks"

  /** The backup document. Records are kept as the JSON values they are;
      `watermarkSettings` is JNull when there are none. `version` and
      `timestamp` are whatever truthy value the document carried. */
  datatype BackupData = BackupData(
    version: Json,
    timestamp: Json,
    watermarks: seq<Json>,
    watermarkSettings: Json,
    gallery: seq<Json>)

  /** Why an export is refused: the stored settings text is not JSON, or
      there is nothing to export. */
  datatype ExportError = UnreadableSettings | NothingToExport

  /** What reading the chosen file produced: a read error, text that is not
      JSON, or the decoded value. */
  datatype FileContent = ReadFailed | NotJson | Decoded(value: Json)

  /** Why an imported file is refused. */
  datatype ValidationError = FileReadError | InvalidJson | NotAnObject | EmptyBackup

  /** The document carries no record at all. */
  predicate IsEmpty(d: BackupData) {
    |d.gallery| == 0 && |d.watermarks| == 0
  }

  /** The field-by-field coercion of a decoded object into a document:
      falsy `version`, `timestamp` and `watermarkSettings` get defaults,
      non-array collections become empty. `now` is the current instant. */
  function Coerce(json: Json, now: int): (d: BackupData)
    ensures Truthy(d.version)
    ensures d.watermarkSettings == JNull || Truthy(d.watermarkSettings)
    ensures d.gallery != [] ==> json.JObj? && "gallery" in json.fields && json.fields["gallery"] == JArr(d.gallery)
    ensures d.watermarks != [] ==> json.JObj? && "watermarks" in json.fields && json.fields["watermarks"] == JArr(d.watermarks)
    ensures !json.JObj? ==> d == BackupData(JNum(1.0), JNum(now as real), [], JNull, [])
  {
    BackupData(
      version := Or(Member(json, "version"), JNum(1.0)),
      timestamp := Or(Member(json, "timestamp"), JNum(now as real)),
      gallery := ArrayOrEmpty(Member(json, "gallery")),
      watermarks := ArrayOrEmpty(Member(json, "watermarks")),
      watermarkSettings := Or(Member(json, "watermarkSettings"), JNull))
  }

  /** Validation of an imported file: rejects what is not an object (arrays
      pass this test) and what is empty after coercion; otherwise returns
      the coerced document. */
  function Validate(content: FileContent, now: int): (r: Result<BackupData, ValidationError>)
    ensures content == ReadFailed ==> r == Err(FileReadError)
    ensures content == NotJson ==> r == Err(InvalidJson)
    ensures r == Err(NotAnObject) <==> content.Decoded? && !IsObjectTyped(content.value)
    ensures r.Ok? <==> content.Decoded? && IsObjectTyped(content.value) && !IsEmpty(Coerce(content.value, now))
    ensures r == Err(EmptyBackup) <==> content.Decoded? && IsObjectTyped(content.value) && IsEmpty(Coerce(content.value, now))
    ensures r.Ok? ==> r.value == Coerce(content.value, now) && !IsEmpty(r.value)
  {
    match content
    case ReadFailed => Err(FileReadError)
    case NotJson => Err(InvalidJson)
    case Decoded(json) =>
      if !IsObjectTyped(json) then Err(NotAnObject)
      else
        var data := Coerce(json, now);
        if IsEmpty(data) then Err(EmptyBackup) else Ok(data)
  }

  /** The coercion defaults and pass-throughs, field by field, of an accepted
      document: records are passed through unchanged, so every record `id`
      survives validation. */
  lemma ValidateCoercion(json: Json, now: int)
    requires Validate(Decoded(json), now).Ok?
    ensures var d := Validate(Decoded(json), now).value;
      json.JObj?
      && (var f := json.fields;
          (d.version == if "version" in f && Truthy(f["version"]) then f["version"] else JNum(1.0))
          && (d.timestamp == if "timestamp" in f && Truthy(f["timestamp"]) then f["timestamp"] else JNum(now as real))
          && (d.gallery == if "gallery" in f && f["gallery"].JArr? then f["gallery"].elems else [])
          && (d.watermarks == if "watermarks" in f && f["watermarks"].JArr? then f["watermarks"].elems else [])
          && (d.watermarkSettings == if "watermarkSettings" in f && Truthy(f["watermarkSettings"]) then f["watermarkSettings"] else JNull))
  {
  }

  /** An array passes the object test but is always refused as empty, since
      it has none of the document's fields. */
  lemma ValidateArray(elems: seq<Json>, now: int)
    ensures Validate(Decoded(JArr(elems)), now) == Err(EmptyBackup)
  {
  }

  /** An object with at least one gallery or watermark record is accepted,
      whatever else it carries. */
  lemma ValidateAcceptsRecords(fields: map<string, Json>, now: int)
    requires ("gallery" in fields && fields["gallery"].JArr? && |fields["gallery"].elems| > 0)
          || ("watermarks" in fields && fields["watermarks"].JArr? && |fields["watermarks"].elems| > 0)
    ensures Validate(Decoded(JObj(fields)), now).Ok?
  {
  }

  /** `{}` is refused as empty, not as malformed; `{"gallery":[{"id":"a"}]}`
      is accepted with version 1, no watermarks and null settings. */
  lemma ValidateExamples(now: int)
    ensures Validate(Decoded(JObj(map[])), now) == Err(EmptyBackup)
    ensures var rec := JObj(map["id" := JStr("a")]);
      Validate(Decoded(JObj(map["gallery" := JArr([rec])])), now)
        == Ok(BackupData(JNum(1.0), JNum(now as real), [], JNull, [rec]))
  {
    var rec := JObj(map["id" := JStr("a")]);
    var f := map["gallery" := JArr([rec])];
    assert "version" !in f && "timestamp" !in f && "watermarks" !in f && "watermarkSettings" !in f;
  }

  /** The document as the JSON object `JSON.stringify` writes and
      `JSON.parse` reads back. */
  function ToJson(d: BackupData): Json {
    JObj(map[
      "version" := d.version,
      "timestamp" := d.timestamp,
      "watermarks" := JArr(d.watermarks),
      "watermarkSettings" := d.watermarkSettings,
      "gallery" := JArr(d.gallery)])
  }

  /** Validating a written non-empty document gives back its collections
      unchanged and its truthy fields unchanged; only falsy fields are
      replaced by their defaults. */
  lemma ValidateToJson(d: BackupData, now: int)
    requires !IsEmpty(d)
    ensures var r := Validate(Decoded(ToJson(d)), now);
      r.Ok?
      && r.value.gallery == d.gallery
      && r.value.watermarks == d.watermarks
      && r.value.watermarkSettings == (if Truthy(d.watermarkSettings) then d.watermarkSettings else JNull)
      && r.value.version == (if Truthy(d.version) then d.version else JNum(1.0))
      && r.value.timestamp == (if Truthy(d.timestamp) then d.timestamp else JNum(now as real))
  {
    var f := ToJson(d).fields;
    assert f["version"] == d.version;
    assert f["timestamp"] == d.timestamp;
    assert f["watermarks"] == JArr(d.watermarks);
    assert f["watermarkSettings"] == d.watermarkSettings;
    assert f["gallery"] == JArr(d.gallery);
  }

  /** One write issued against a store, for stating the restore order. */
  datatype StoreOp =
    | OpRemoveItem(key: string)
    | OpSetItem(key: string, value: string)
    | OpClearImages
    | OpClearWatermarks
    | OpRestoreWatermarks(records: seq<Json>)
    | OpRestoreGallery(records: seq<Json>)
  {
    /** The operation discards existing data rather than adding any. */
    predicate IsClearing() {
      OpRemoveItem? || OpClearImages? || OpClearWatermarks?
    }
  }

  /** The truthy settings record of a document (the `if (data.watermarkSettings)` test). */
  predicate HasSettings(d: BackupData) {
    Truthy(d.watermarkSettings)
  }

  /** The writes that clear the stores at the start of a restore. */
  function ClearOps(): seq<StoreOp> {
    [OpRemoveItem(LEGACY_WATERMARKS_KEY), OpClearImages, OpClearWatermarks]
  }

  /** The writes that put the contents of `d` back, in order. */
  function WriteOps(d: BackupData, encode: Json -> string): seq<StoreOp> {
    (if HasSettings(d) then [OpSetItem(SETTINGS_KEY, encode(d.watermarkSettings))] else [])
    + (if |d.watermarks| > 0 then [OpRestoreWatermarks(d.watermarks)] else [])
    + (if |d.gallery| > 0 then [OpRestoreGallery(d.gallery)] else [])
  }

  /** The writes a restore of `d` issues, in order. */
  function RestoreOps(d: BackupData, encode: Json -> string): seq<StoreOp> {
    ClearOps() + WriteOps(d, encode)
  }

  /** A restore removes the legacy key and clears both collections before
      any write, whatever the document holds; each later step only adds,
      and a step is there exactly when the document has data for it. */
  lemma RestoreClearsFirst(d: BackupData, encode: Json -> string)
    ensures var ops := RestoreOps(d, encode);
      3 <= |ops| <= 6
      && ops[..3] == [OpRemoveItem(LEGACY_WATERMARKS_KEY), OpClearImages, OpClearWatermarks]
      && (forall i :: 3 <= i < |ops| ==> !ops[i].IsClearing())
      && (OpSetItem(SETTINGS_KEY, encode(d.watermarkSettings)) in ops <==> HasSettings(d))
      && (OpRestoreWatermarks(d.watermarks) in ops <==> |d.watermarks| > 0)
      && (OpRestoreGallery(d.gallery) in ops <==> |d.gallery| > 0)
  {
    var ops := RestoreOps(d, encode);
    var tail := ops[3..];
    assert ops == ops[..3] + tail;
    assert forall i :: 0 <= i < |tail| ==> !tail[i].IsClearing();
  }

  /** The stored settings text can be read back (absent, empty, or JSON). */
  predicate SettingsReadable(settings: map<string, string>, decode: string -> Option<Json>) {
    SETTINGS_KEY !in settings || settings[SETTINGS_KEY] == "" || decode(settings[SETTINGS_KEY]).Some?
  }

  /** `JSON.parse(JSON.stringify(v))` gives `v` back for every value `v`
      that `JSON.parse` produced: the settings record is one such value. */
  ghost predicate CodecRoundTrips(encode: Json -> string, decode: string -> Option<Json>) {
    forall s :: decode(s).Some? ==> decode(encode(decode(s).value)) == decode(s)
  }

  /** The assumption can be met by a codec that refuses some text, so both
      sides of a backup's success condition are reachable under it. This
      codec reads every text but "?" as a JSON string and writes a JSON
      string as its own text: stored settings "?" are unreadable, and
      stored settings "1" are readable. */
  lemma CodecRoundTripsSatisfiable()
    ensures var encode := (v: Json) => if v.JStr? then v.s else "";
      var decode := (s: string) => if s == "?" then None else Some(JStr(s));
      CodecRoundTrips(encode, decode)
      && !SettingsReadable(map[SETTINGS_KEY := "?"], decode)
      && SettingsReadable(map[SETTINGS_KEY := "1"], decode)
  {
  }

  /** Why a backup followed by its restore stops. */
  datatype RoundTripError = ExportFailed(exportError: ExportError) | ImportFailed(validationError: ValidationError)

  /** The settings store (string keys to string values) and the content
      store's two collections, with the operations the pipeline uses. */
  class Stores {
    var settings: map<string, string>
    var gallery: seq<Json>
    var watermarks: seq<Json>
    /** Every write issued so far, oldest first. */
    ghost var trace: seq<StoreOp>

    constructor (settings0: map<string, string>, gallery0: seq<Json>, watermarks0: seq<Json>)
      ensures settings == settings0 && gallery == gallery0 && watermarks == watermarks0
      ensures trace == []
    {
      settings, gallery, watermarks := settings0, gallery0, watermarks0;
      trace := [];
    }

    /** `localStorage.getItem(key)`. */
    function GetItem(key: string): (r: Option<string>)
      reads this
      ensures r.Some? <==> key in settings
      ensures r.Some? ==> r.value == settings[key]
    {
      if key in settings then Some(settings[key]) else None
    }

    /** `localStorage.removeItem(key)`; removing a missing key does nothing. */
    method RemoveItem(key: string)
      modifies this
      ensures settings == old(settings) - {key}
      ensures gallery == old(gallery) && watermarks == old(watermarks)
      ensures trace == old(trace) + [OpRemoveItem(key)]
    {
      settings := settings - {key};
      trace := trace + [OpRemoveItem(key)];
    }

    /** `localStorage.setItem(key, value)`. */
    method SetItem(key: string, value: string)
      modifies this
      ensures settings == old(settings)[key := value]
      ensures gallery == old(gallery) && watermarks == old(watermarks)
      ensures trace == old(trace) + [OpSetItem(key, value)]
    {
      settings := settings[key := value];
      trace := trace + [OpSetItem(key, value)];
    }

    /** Empties the gallery collection. */
    method ClearAllImages()
      modifies this
      ensures gallery == []
      ensures settings == old(settings) && watermarks == old(watermarks)
      ensures trace == old(trace) + [OpClearImages]
    {
      gallery := [];
      trace := trace + [OpClearImages];
    }

    /** Empties the watermark collection. */
    method ClearAllWatermarks()
      modifies this
      ensures watermarks == []
      ensures settings == old(settings) && gallery == old(gallery)
      ensures trace == old(trace) + [OpClearWatermarks]
    {
      watermarks := [];
      trace := trace + [OpClearWatermarks];
    }

    /** Inserts each watermark record as it is, identifier included. */
    method RestoreWatermarks(records: seq<Json>)
      modifies this
      ensures watermarks == old(watermarks) + records
      ensures settings == old(settings) && gallery == old(gallery)
      ensures trace == old(trace) + [OpRestoreWatermarks(records)]
    {
      watermarks := watermarks + records;
      trace := trace + [OpRestoreWatermarks(records)];
    }

    /** Inserts each gallery record as it is, identifier included. */
    method RestoreGallery(records: seq<Json>)
      modifies this
      ensures gallery == old(gallery) + records
      ensures settings == old(settings) && watermarks == old(watermarks)
      ensures trace == old(trace) + [OpRestoreGallery(records)]
    {
      gallery := gallery + records;
      trace := trace + [OpRestoreGallery(records)];
    }

    /** Builds the backup document from the stores. The settings text is
      decoded first, so unreadable settings fail the export even when
      there is nothing to export; then an empty state is refused. An
      empty settings text counts as no settings. */
    method ExportData(now: int, decode: string -> Option<Json>) returns (r: Result<BackupData, ExportError>)
      ensures !SettingsReadable(settings, decode) ==> r == Err(UnreadableSettings)
      ensures r == Err(NothingToExport) <==> SettingsReadable(settings, decode) && |gallery| == 0 && |watermarks| == 0
      ensures r.Ok? <==> SettingsReadable(settings, decode) && (|gallery| > 0 || |watermarks| > 0)
      ensures r.Ok? ==>
        r.value.version == JNum(BACKUP_VERSION as real)
        && r.value.timestamp == JNum(now as real)
        && r.value.gallery == gallery
        && r.value.watermarks == watermarks
        && r.value.watermarkSettings ==
             (if SETTINGS_KEY in settings && settings[SETTINGS_KEY] != ""
              then decode(settings[SETTINGS_KEY]).value else JNull)
    {
      var images := gallery;
      var marks := watermarks;
      var settingsStr := GetItem(SETTINGS_KEY);
      var watermarkSettings := JNull;
      if settingsStr.Some? && settingsStr.value != "" {
        var parsed := decode(settingsStr.value);
        if parsed.None? {
          return Err(UnreadableSettings);
        }
        watermarkSettings := parsed.value;
      }
      if |images| == 0 && |marks| == 0 {
        return Err(NothingToExport);
      }
      r := Ok(BackupData(
        version := JNum(BACKUP_VERSION as real),
        timestamp := JNum(now as real),
        watermarks := marks,
        watermarkSettings := watermarkSettings,
        gallery := images));
    }

    /** Step 1 of a restore: the legacy key is removed and both
      collections are emptied; no other settings key changes. */
    method ClearData()
      modifies this
      ensures settings == old(settings) - {LEGACY_WATERMARKS_KEY}
      ensures gallery == [] && watermarks == []
      ensures trace == old(trace) + ClearOps()
    {
      RemoveItem(LEGACY_WATERMARKS_KEY);
      ClearAllImages();
      ClearAllWatermarks();
    }

    /** Steps 2 to 4 of a restore: the settings record is written only when
      the document has one, and each non-empty collection is inserted. */
    method WriteData(data: BackupData, encode: Json -> string)
      modifies this
      ensures gallery == old(gallery) + data.gallery && watermarks == old(watermarks) + data.watermarks
      ensures settings ==
        if HasSettings(data) then old(settings)[SETTINGS_KEY := encode(data.watermarkSettings)]
        else old(settings)
      ensures trace == old(trace) + WriteOps(data, encode)
    {
      if HasSettings(data) {
        SetItem(SETTINGS_KEY, encode(data.watermarkSettings));
      }
      if |data.watermarks| > 0 {
        RestoreWatermarks(data.watermarks);
      }
      if |data.gallery| > 0 {
        RestoreGallery(data.gallery);
      }
    }

    /** Destructive restore: removes the legacy key, clears both
      collections, writes the settings only when the document has them,
      then reinserts each non-empty collection. Afterwards each collection
      is exactly the document's and no other settings key has changed. */
    method RestoreBackup(data: BackupData, encode: Json -> string)
      modifies this
      ensures gallery == data.gallery && watermarks == data.watermarks
      ensures settings ==
        if HasSettings(data)
        then (old(settings) - {LEGACY_WATERMARKS_KEY})[SETTINGS_KEY := encode(data.watermarkSettings)]
        else old(settings) - {LEGACY_WATERMARKS_KEY}
      ensures trace == old(trace) + RestoreOps(data, encode)
    {
      ClearData();
      WriteData(data, encode);
    }

    /** Export, validate the exported document, restore. The file's own
      stringify and parse are taken as lossless: the document is validated
      as the JSON value `ToJson` gives, so the records are assumed to be
      JSON values. It succeeds
      exactly when the settings are readable and some record exists, and
      then reproduces both collections and the settings record (up to its
      text encoding), removes only the legacy key and changes no other
      key. When it fails, nothing has been written. */
    method BackupThenRestore(now: int, later: int, encode: Json -> string, decode: string -> Option<Json>)
      returns (r: Result<(), RoundTripError>)
      requires CodecRoundTrips(encode, decode)
      modifies this
      ensures r.Ok? <==> old(SettingsReadable(settings, decode) && (|gallery| > 0 || |watermarks| > 0))
      ensures r.Err? ==> settings == old(settings) && gallery == old(gallery) && watermarks == old(watermarks)
      ensures r.Ok? ==> gallery == old(gallery) && watermarks == old(watermarks)
      ensures r.Ok? ==> settings.Keys == old(settings).Keys - {LEGACY_WATERMARKS_KEY}
      ensures r.Ok? ==> forall k :: k in settings && k != SETTINGS_KEY ==> settings[k] == old(settings)[k]
      ensures r.Ok? && SETTINGS_KEY in settings ==>
        settings[SETTINGS_KEY] == old(settings)[SETTINGS_KEY]
        || decode(settings[SETTINGS_KEY]) == decode(old(settings)[SETTINGS_KEY])
    {
      var exported := ExportData(now, decode);
      if exported.Err? {
        return Err(ExportFailed(exported.error));
      }
      var doc := exported.value;
      var validated := Validate(Decoded(ToJson(doc)), later);
      // a written non-empty document always validates
      ValidateToJson(doc, later);
      RestoreBackup(validated.value, encode);
      r := Ok(());
    }
  }
}
