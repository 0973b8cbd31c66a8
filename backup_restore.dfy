/**
 * Backup export and import of the browser storage. Storage is a map from key
 * to stored text; JSON text is parsed into a small `Json` datatype by an
 * opaque `parse` function and written back by an opaque `stringify` function,
 * both passed in by the caller.
 */
module Backup {
  import opened Wrappers

  datatype Json =
    | JNull
    | JBool(b: bool)
    | JNumber(n: real)
    | JString(s: string)
    | JArray(items: seq<Json>)
    | JObject(fields: map<string, Json>)

  /** JavaScript truthiness of a parsed value: arrays and objects, even empty ones, are truthy. */
  predicate Truthy(v: Json) {
    match v
    case JNull => false
    case JBool(b) => b
    case JNumber(n) => n != 0.0
    case JString(s) => s != ""
    case JArray(_) => true
    case JObject(_) => true
  }

  /**
   * The storage keys the component uses. `all` lists the values of the key
   * table in declaration order, the keys the import loop walks through; the
   * six named keys are the ones export and the format check refer to.
   */
  datatype StorageKeys = StorageKeys(
    settings: string,
    materials: string,
    machines: string,
    quotes: string,
    investments: string,
    futurePurchases: string,
    all: seq<string>)

  /** What the file reader delivered: text, or something that is not a string. */
  datatype ReadResult = NotText | Text(content: string)

  datatype File = File(name: string, content: ReadResult)

  datatype ImportError =
    | InvalidFile      // the file did not read as text
    | UnparseableJson  // `JSON.parse` threw
    | NullData         // the file holds `null`: reading a property of it throws
    | InvalidFormat    // the format check failed and the future-purchases entry is present
    | ReadOnlyData     // the file holds a string, number or boolean: adding a property to it throws in strict mode

  datatype ImportOutcome = NothingPending | Imported | Failed(error: ImportError)

  // ---------------------------------------------------------------------------
  // Export

  /** `localStorage.getItem(key) || fallback`: a missing or empty item gives the fallback. */
  function StoredOr(storage: map<string, string>, key: string, fallback: string): (r: string)
    ensures key !in storage ==> r == fallback
    ensures key in storage && storage[key] == "" ==> r == fallback
    ensures key in storage && storage[key] != "" ==> r == storage[key]
  {
    if key in storage && storage[key] != "" then storage[key] else fallback
  }

  /** The six keys exported, in the order of the export object. */
  function ExportKeys(keys: StorageKeys): seq<string> {
    [keys.settings, keys.materials, keys.machines, keys.quotes, keys.investments, keys.futurePurchases]
  }

  /** The text exported for one of the six keys: settings fall back to `{}`, every other key to `[]`. */
  function ExportText(storage: map<string, string>, keys: StorageKeys, key: string): string {
    StoredOr(storage, key, if key == keys.settings then "{}" else "[]")
  }

  /** Parses the exported text of each key, in order, into one object; `None` when a parse throws. */
  function ExportFrom(storage: map<string, string>, keys: StorageKeys, ks: seq<string>, parse: string -> Option<Json>): Option<map<string, Json>>
  {
    if |ks| == 0 then Some(map[])
    else
      var prev := ExportFrom(storage, keys, ks[..|ks| - 1], parse);
      var k := ks[|ks| - 1];
      var v := parse(ExportText(storage, keys, k));
      if prev.None? || v.None? then None else Some(prev.value[k := v.value])
  }

  /** `handleExport`: the object serialised into the download. */
  function ExportData(storage: map<string, string>, keys: StorageKeys, parse: string -> Option<Json>): Option<map<string, Json>> {
    ExportFrom(storage, keys, ExportKeys(keys), parse)
  }

  /**
   * Export yields one entry per exported key holding that key's parsed text,
   * and fails exactly when one of those texts does not parse.
   */
  lemma {:induction false} ExportFromEntries(storage: map<string, string>, keys: StorageKeys, ks: seq<string>, parse: string -> Option<Json>)
    ensures var r := ExportFrom(storage, keys, ks, parse);
      && (r.None? <==> exists i | 0 <= i < |ks| :: parse(ExportText(storage, keys, ks[i])).None?)
      && (r.Some? ==> r.value.Keys == set i | 0 <= i < |ks| :: ks[i])
      && (r.Some? ==> forall k | k in r.value :: Some(r.value[k]) == parse(ExportText(storage, keys, k)))
  {
    if |ks| > 0 {
      var ks' := ks[..|ks| - 1];
      ExportFromEntries(storage, keys, ks', parse);
      assert forall i | 0 <= i < |ks'| :: ks'[i] == ks[i];
      var r := ExportFrom(storage, keys, ks, parse);
      if r.Some? {
        assert (set i | 0 <= i < |ks| :: ks[i]) == (set i | 0 <= i < |ks'| :: ks'[i]) + {ks[|ks| - 1]} by {
          forall i | 0 <= i < |ks|
            ensures ks[i] in (set i | 0 <= i < |ks'| :: ks'[i]) + {ks[|ks| - 1]}
          {
            if i < |ks'| {
              assert ks'[i] == ks[i];
            }
          }
        }
      }
    }
  }

  /** Export of the whole storage: the six keys, each with its parsed stored text or default. */
  lemma ExportEntries(storage: map<string, string>, keys: StorageKeys, parse: string -> Option<Json>)
    ensures var r := ExportData(storage, keys, parse);
      && (r.None? <==> exists k | k in ExportKeys(keys) :: parse(ExportText(storage, keys, k)).None?)
      && (r.Some? ==> r.value.Keys == {keys.settings, keys.materials, keys.machines, keys.quotes, keys.investments, keys.futurePurchases})
      && (r.Some? ==> forall k | k in r.value :: Some(r.value[k]) == parse(ExportText(storage, keys, k)))
  {
    var ks := ExportKeys(keys);
    ExportFromEntries(storage, keys, ks, parse);
    assert (set i | 0 <= i < |ks| :: ks[i]) == {keys.settings, keys.materials, keys.machines, keys.quotes, keys.investments, keys.futurePurchases} by {
      assert ks[0] == keys.settings && ks[1] == keys.materials && ks[2] == keys.machines;
      assert ks[3] == keys.quotes && ks[4] == keys.investments && ks[5] == keys.futurePurchases;
    }
    assert (exists k | k in ks :: parse(ExportText(storage, keys, k)).None?) ==
           (exists i | 0 <= i < |ks| :: parse(ExportText(storage, keys, ks[i])).None?);
  }

  // ---------------------------------------------------------------------------
  // Import decision

  /** The properties of a parsed value: an object's fields; arrays and primitives carry none under a storage key. */
  function Properties(v: Json): map<string, Json> {
    if v.JObject? then v.fields else map[]
  }

  /** Reading `data[key]`; `None` stands for `undefined`. */
  function Get(data: map<string, Json>, key: string): Option<Json> {
    if key in data then Some(data[key]) else None
  }

  predicate IsArray(x: Option<Json>) {
    x.Some? && x.value.JArray?
  }

  /** The basic format check: settings truthy and the five list entries arrays. */
  predicate PassesCheck(data: map<string, Json>, keys: StorageKeys) {
    && Get(data, keys.settings).Some? && Truthy(Get(data, keys.settings).value)
    && IsArray(Get(data, keys.materials))
    && IsArray(Get(data, keys.machines))
    && IsArray(Get(data, keys.quotes))
    && IsArray(Get(data, keys.investments))
    && IsArray(Get(data, keys.futurePurchases))
  }

  /**
   * The body of the reader's `onload` up to the restore loop: the data to
   * restore, or the error thrown.
   */
  function DecideImport(read: ReadResult, keys: StorageKeys, parse: string -> Option<Json>): Result<map<string, Json>, ImportError> {
    if read.NotText? then Err(InvalidFile)
    else
      var parsed := parse(read.content);
      if parsed.None? then Err(UnparseableJson)
      else if parsed.value == JNull then Err(NullData)
      else
        var data := Properties(parsed.value);
        if PassesCheck(data, keys) then Ok(data)
        else if keys.futurePurchases !in data then
          if parsed.value.JObject? || parsed.value.JArray? then Ok(data[keys.futurePurchases := JArray([])])
          else Err(ReadOnlyData)
        else Err(InvalidFormat)
  }

  /** A file that is not text, or whose text does not parse, is refused. */
  lemma UnreadableRefused(read: ReadResult, keys: StorageKeys, parse: string -> Option<Json>)
    requires read.NotText? || parse(read.content).None?
    ensures DecideImport(read, keys, parse).Err?
  {
  }

  /** A parsed object passing the format check is restored as it is. */
  lemma CheckedObjectAccepted(text: string, fields: map<string, Json>, keys: StorageKeys, parse: string -> Option<Json>)
    requires parse(text) == Some(JObject(fields))
    requires PassesCheck(fields, keys)
    ensures DecideImport(Text(text), keys, parse) == Ok(fields)
  {
  }

  /**
   * A parsed object whose check fails is restored only when it lacks a
   * future-purchases entry, which is then added as `[]`; otherwise it is refused.
   */
  lemma FailedCheckOutcome(text: string, fields: map<string, Json>, keys: StorageKeys, parse: string -> Option<Json>)
    requires parse(text) == Some(JObject(fields))
    requires !PassesCheck(fields, keys)
    ensures keys.futurePurchases !in fields ==>
      DecideImport(Text(text), keys, parse) == Ok(fields[keys.futurePurchases := JArray([])])
    ensures keys.futurePurchases in fields ==> DecideImport(Text(text), keys, parse) == Err(InvalidFormat)
  {
  }

  /**
   * The backward-compatibility branch lets a file through although a different
   * entry is invalid: here the materials entry is not an array.
   */
  lemma InvalidEntryAcceptedWithoutFuturePurchases(keys: StorageKeys, parse: string -> Option<Json>, text: string)
    requires keys.materials != keys.futurePurchases && keys.settings != keys.futurePurchases
    requires parse(text) == Some(JObject(map[keys.settings := JObject(map[]), keys.materials := JNumber(1.0)]))
    ensures var d := DecideImport(Text(text), keys, parse);
      && d.Ok?
      && !IsArray(Get(d.value, keys.materials))
  {
  }

  /** Whatever is accepted either passed the check or had no future-purchases entry in the file. */
  lemma AcceptedData(read: ReadResult, keys: StorageKeys, parse: string -> Option<Json>)
    requires DecideImport(read, keys, parse).Ok?
    ensures var props := Properties(parse(read.content).value);
      || (DecideImport(read, keys, parse).value == props && PassesCheck(props, keys))
      || (keys.futurePurchases !in props
          && DecideImport(read, keys, parse).value == props[keys.futurePurchases := JArray([])])
  {
  }

  // ---------------------------------------------------------------------------
  // Restore

  /** A key the restore loop writes: the imported value under it is truthy. */
  predicate Written(data: map<string, Json>, key: string) {
    key in data && Truthy(data[key])
  }

  /** The restore loop over `ks`, in order, applied to `storage`. */
  function Restore(storage: map<string, string>, ks: seq<string>, data: map<string, Json>, stringify: Json -> string): map<string, string>
  {
    if |ks| == 0 then storage
    else
      var prev := Restore(storage, ks[..|ks| - 1], data, stringify);
      var k := ks[|ks| - 1];
      if Written(data, k) then prev[k := stringify(data[k])] else prev
  }

  /**
   * Restoring writes exactly the listed keys whose imported value is truthy,
   * each with the serialised imported value; every other key keeps its stored text.
   */
  lemma {:induction false} RestoreEffect(storage: map<string, string>, ks: seq<string>, data: map<string, Json>, stringify: Json -> string)
    ensures var r := Restore(storage, ks, data, stringify);
      && (forall k :: k in r <==> k in storage || (k in ks && Written(data, k)))
      && (forall k | k in ks && Written(data, k) :: r[k] == stringify(data[k]))
      && (forall k | k in storage && !(k in ks && Written(data, k)) :: r[k] == storage[k])
  {
    if |ks| > 0 {
      var ks' := ks[..|ks| - 1];
      RestoreEffect(storage, ks', data, stringify);
      assert ks == ks' + [ks[|ks| - 1]];
      assert forall k :: k in ks <==> k in ks' || k == ks[|ks| - 1];
    }
  }

  /**
   * Export after a restore: when serialisation and parsing round-trip and every
   * exported key was written, export gives back the imported values.
   */
  lemma ExportAfterRestore(storage: map<string, string>, keys: StorageKeys, data: map<string, Json>,
                           parse: string -> Option<Json>, stringify: Json -> string)
    requires forall v :: parse(stringify(v)) == Some(v) && stringify(v) != ""
    requires forall k | k in ExportKeys(keys) :: k in keys.all && Written(data, k)
    ensures var r := ExportData(Restore(storage, keys.all, data, stringify), keys, parse);
      && r.Some?
      && r.value.Keys == {keys.settings, keys.materials, keys.machines, keys.quotes, keys.investments, keys.futurePurchases}
      && forall k | k in r.value :: k in data && r.value[k] == data[k]
  {
    var st := Restore(storage, keys.all, data, stringify);
    RestoreEffect(storage, keys.all, data, stringify);
    ExportEntries(st, keys, parse);
    forall k | k in ExportKeys(keys)
      ensures parse(ExportText(st, keys, k)) == Some(data[k])
    {
      assert st[k] == stringify(data[k]);
    }
  }

  // ---------------------------------------------------------------------------
  // The component's state

  class BackupRestore {
    const keys: StorageKeys
    var storage: map<string, string>
    var fileToImport: Option<File>
    var isImportAlertOpen: bool

    constructor (keys: StorageKeys, storage: map<string, string>)
      ensures this.keys == keys && this.storage == storage
      ensures fileToImport == None && !isImportAlertOpen
    {
      this.keys := keys;
      this.storage := storage;
      fileToImport := None;
      isImportAlertOpen := false;
    }

    /** `handleFileChange`: the first chosen file becomes pending and the dialog opens; no file changes nothing. */
    method HandleFileChange(files: seq<File>)
      modifies this
      ensures |files| > 0 ==> fileToImport == Some(files[0]) && isImportAlertOpen
      ensures |files| == 0 ==> fileToImport == old(fileToImport) && isImportAlertOpen == old(isImportAlertOpen)
      ensures storage == old(storage)
    {
      if |files| > 0 {
        fileToImport := Some(files[0]);
        isImportAlertOpen := true;
      }
    }

    /** The dialog's open-state callback. */
    method SetImportAlertOpen(open: bool)
      modifies this
      ensures isImportAlertOpen == open
      ensures fileToImport == old(fileToImport) && storage == old(storage)
    {
      isImportAlertOpen := open;
    }

    /** The cancel button: the pending file is dropped. */
    method CancelImport()
      modifies this
      ensures fileToImport == None
      ensures isImportAlertOpen == old(isImportAlertOpen) && storage == old(storage)
    {
      fileToImport := None;
    }

    /**
     * `confirmImport`, with the reader's `onload` run at once. Without a pending
     * file nothing happens. Otherwise the file is decided on; accepted data is
     * restored key by key, a refusal writes nothing; either way the pending file
     * is dropped and the dialog closed.
     */
    method ConfirmImport(parse: string -> Option<Json>, stringify: Json -> string) returns (outcome: ImportOutcome)
      modifies this
      ensures old(fileToImport).None? ==>
        && outcome == NothingPending
        && storage == old(storage) && fileToImport == old(fileToImport) && isImportAlertOpen == old(isImportAlertOpen)
      ensures old(fileToImport).Some? ==>
        var d := DecideImport(old(fileToImport).value.content, keys, parse);
        && fileToImport == None && !isImportAlertOpen
        && (d.Ok? ==> outcome == Imported && storage == Restore(old(storage), keys.all, d.value, stringify))
        && (d.Err? ==> outcome == Failed(d.error) && storage == old(storage))
    {
      if fileToImport.None? {
        return NothingPending;
      }
      var decision := DecideImport(fileToImport.value.content, keys, parse);
      if decision.Ok? {
        var data := decision.value;
        var i := 0;
        while i < |keys.all|
          invariant 0 <= i <= |keys.all|
          invariant storage == Restore(old(storage), keys.all[..i], data, stringify)
        {
          var key := keys.all[i];
          if key in data && Truthy(data[key]) {
            storage := storage[key := stringify(data[key])];
          }
          assert keys.all[..i + 1][..i] == keys.all[..i];
          i := i + 1;
        }
        assert keys.all[..i] == keys.all;
        outcome := Imported;
      } else {
        outcome := Failed(decision.error);
      }
      fileToImport := None;
      isImportAlertOpen := false;
    }
  }
}
