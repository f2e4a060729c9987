/** The theme customizer's settings store: a flat record of 23 named style
    fields, seeded from a fixed default, edited one field at a time, reset
    wholesale, exported as a JSON document and imported from one without any
    check of the document's shape. */
module ThemeCustomizer {
  import opened Wrappers

  /** A value of a parsed JSON document. A field the record declares as
      `string` holds a `Str`, one declared as `number` a `Num`; the other
      cases can only arrive through an import. */
  datatype Value =
    | Str(s: string)
    | Num(n: real)
    | Bool(b: bool)
    | Null
    | List(items: seq<Value>)
    | Object(fields: map<string, Value>)

  /** The settings record, keyed by field name. */
  type Settings = map<string, Value>

  /** The declared TypeScript type of a field. */
  datatype Kind = StringField | NumberField

  predicate HasKind(v: Value, k: Kind) {
    match k
    case StringField => v.Str?
    case NumberField => v.Num?
  }

  /** `interface ThemeSettings`: the 23 field names and their declared types. */
  const Schema: map<string, Kind> := map[
    "primaryColor" := StringField,
    "backgroundColor" := StringField,
    "textColor" := StringField,
    "menuBackgroundColor" := StringField,
    "menuTextColor" := StringField,
    "fontFamily" := StringField,
    "fontSize" := NumberField,
    "fontWeight" := StringField,
    "lineHeight" := NumberField,
    "letterSpacing" := NumberField,
    "headerHeight" := NumberField,
    "menuSpacing" := NumberField,
    "contentMargins" := NumberField,
    "borderRadius" := NumberField,
    "blurIntensity" := NumberField,
    "blurPeriphery" := NumberField,
    "shadowIntensity" := NumberField,
    "animationSpeed" := NumberField,
    "logoUrl" := StringField,
    "faviconUrl" := StringField,
    "backgroundImageUrl" := StringField,
    "backgroundOpacity" := NumberField,
    "backgroundPosition" := StringField]

  /** The record has exactly the declared fields, each holding a value of
      its declared type. */
  predicate WellTyped(s: Settings) {
    s.Keys == Schema.Keys && forall k :: k in s ==> HasKind(s[k], Schema[k])
  }

  /** `defaultSettings`. */
  const Defaults: Settings := map[
    "primaryColor" := Str("#dc2626"),
    "backgroundColor" := Str("#ffffff"),
    "textColor" := Str("#1f2937"),
    "menuBackgroundColor" := Str("#f9fafb"),
    "menuTextColor" := Str("#374151"),
    "fontFamily" := Str("Inter"),
    "fontSize" := Num(16.0),
    "fontWeight" := Str("400"),
    "lineHeight" := Num(1.6),
    "letterSpacing" := Num(0.0),
    "headerHeight" := Num(64.0),
    "menuSpacing" := Num(32.0),
    "contentMargins" := Num(24.0),
    "borderRadius" := Num(8.0),
    "blurIntensity" := Num(12.0),
    "blurPeriphery" := Num(4.0),
    "shadowIntensity" := Num(0.1),
    "animationSpeed" := Num(200.0),
    "logoUrl" := Str(""),
    "faviconUrl" := Str(""),
    "backgroundImageUrl" := Str(""),
    "backgroundOpacity" := Num(0.1),
    "backgroundPosition" := Str("center")]

  /** The defaults cover every declared field with a value of its type. */
  lemma DefaultsWellTyped()
    ensures WellTyped(Defaults)
  {
  }

  /** The record `{ ...prev, [key]: value }`: field `key` holds `v` and every
      other field is as before. */
  function Updated(s: Settings, key: string, v: Value): (r: Settings)
    ensures key in r && r[key] == v
    ensures r.Keys == s.Keys + {key}
    ensures forall k :: k in s && k != key ==> r[k] == s[k]
  {
    s[key := v]
  }

  /** Of two successive updates of one field only the second is visible. */
  lemma UpdateTwice(s: Settings, key: string, v1: Value, v2: Value)
    ensures Updated(Updated(s, key, v1), key, v2) == Updated(s, key, v2)
  {
  }

  /** Writing a field's current value back leaves the record as it was. */
  lemma UpdateSameValue(s: Settings, key: string)
    requires key in s
    ensures Updated(s, key, s[key]) == s
  {
  }

  /** An update of a declared field keeps the record well typed exactly
      when the new value has the field's declared type. */
  lemma UpdateWellTyped(s: Settings, key: string, v: Value)
    requires WellTyped(s) && key in Schema
    ensures WellTyped(Updated(s, key, v)) <==> HasKind(v, Schema[key])
  {
    var r := Updated(s, key, v);
    if HasKind(v, Schema[key]) {
      forall k | k in r ensures HasKind(r[k], Schema[k]) {
        if k != key {
          assert r[k] == s[k];
        }
      }
    }
  }

  /** The settings after the import handler, given the chosen file (absent
      when none was selected) and the parser: no file or a document that
      does not parse leaves `current`; a document that parses is installed
      as it is. */
  function ImportOutcome(current: Settings, file: Option<string>, parse: string -> Option<Settings>): Settings {
    match file
    case None => current
    case Some(text) =>
      match parse(text)
      case None => current
      case Some(imported) => imported
  }

  /** Without a selected file nothing is imported. */
  lemma ImportWithoutFile(current: Settings, parse: string -> Option<Settings>)
    ensures ImportOutcome(current, None, parse) == current
  {
  }

  /** A document that does not parse leaves the settings as they were, and
      one that parses replaces the whole record with what it holds. */
  lemma ImportOfText(current: Settings, text: string, parse: string -> Option<Settings>)
    ensures parse(text).None? ==> ImportOutcome(current, Some(text), parse) == current
    ensures parse(text).Some? ==> ImportOutcome(current, Some(text), parse) == parse(text).value
  {
  }

  /** Import does not check the document: it yields a well-typed record
      exactly when the parsed document already was one, and an ill-typed
      document is accepted as it is. */
  lemma ImportUnchecked(current: Settings, text: string, parse: string -> Option<Settings>)
    requires parse(text).Some?
    ensures WellTyped(ImportOutcome(current, Some(text), parse)) <==> WellTyped(parse(text).value)
  {
  }

  /** A concrete document that import accepts and that breaks the record:
      a numeric primary colour and none of the other 22 fields. */
  lemma IllTypedImportAccepted(current: Settings)
    ensures exists doc: Settings ::
      ImportOutcome(current, Some("{\"primaryColor\": 0}"), t => Some(doc)) == doc && !WellTyped(doc)
  {
    var doc: Settings := map["primaryColor" := Num(0.0)];
    assert "fontSize" !in doc;
    assert ImportOutcome(current, Some("{\"primaryColor\": 0}"), t => Some(doc)) == doc;
  }

  /** Export followed by import restores the exported record, provided
      the parser reads back what the serializer wrote for it. */
  lemma ExportImportRoundTrip(current: Settings, exported: Settings,
                              stringify: Settings -> string, parse: string -> Option<Settings>)
    requires parse(stringify(exported)) == Some(exported)
    ensures ImportOutcome(current, Some(stringify(exported)), parse) == exported
  {
  }

  /** The file `handleExport` offers for download. */
  datatype Download = Download(fileName: string, mimeType: string, contents: string)

  /** The label of the preview toggle button. */
  function PreviewButtonLabel(previewMode: bool): (caption: string)
    ensures caption == "Изключи превю" <==> previewMode
    ensures caption == "Включи превю" <==> !previewMode
  {
    if previewMode then "Изключи превю" else "Включи превю"
  }

  /** The component's two state cells. */
  class Customizer {
    var settings: Settings
    var previewMode: bool

    /** Mounting: `useState(defaultSettings)` and `useState(false)`. */
    constructor ()
      ensures settings == Defaults && WellTyped(settings)
      ensures !previewMode
    {
      settings := Defaults;
      previewMode := false;
      DefaultsWellTyped();
    }

    /** `updateSetting(key, value)`: replace one declared field. */
    method UpdateSetting(key: string, value: Value)
      requires key in Schema
      modifies this`settings
      ensures settings == Updated(old(settings), key, value)
      ensures old(WellTyped(settings)) ==> (WellTyped(settings) <==> HasKind(value, Schema[key]))
    {
      if WellTyped(settings) {
        UpdateWellTyped(settings, key, value);
      }
      settings := Updated(settings, key, value);
    }

    /** `handleReset`: install the defaults, whatever the current record. */
    method HandleReset()
      modifies this`settings
      ensures settings == Defaults && WellTyped(settings)
    {
      settings := Defaults;
      DefaultsWellTyped();
    }

    /** `handleExport`: serialize the record as `theme-settings.json`. It
        only reads the state. */
    method HandleExport(stringify: Settings -> string) returns (d: Download)
      ensures d.fileName == "theme-settings.json"
      ensures d.mimeType == "application/json"
      ensures d.contents == stringify(settings)
    {
      d := Download("theme-settings.json", "application/json", stringify(settings));
    }

    /** `handleImport`: read the chosen file, if any, and install what it
        parses to; a parse failure is only logged. */
    method HandleImport(file: Option<string>, parse: string -> Option<Settings>)
      modifies this`settings
      ensures settings == ImportOutcome(old(settings), file, parse)
    {
      if file.Some? {
        var parsed := parse(file.value);
        if parsed.Some? {
          settings := parsed.value;
        }
      }
    }

    /** `togglePreview`: negate the preview flag. */
    method TogglePreview()
      modifies this`previewMode
      ensures previewMode == !old(previewMode)
    {
      previewMode := !previewMode;
    }
  }

  /** Toggling the preview twice restores the flag and never touches the
      settings. */
  method TogglePreviewTwice(c: Customizer)
    modifies c
    ensures c.previewMode == old(c.previewMode) && c.settings == old(c.settings)
  {
    c.TogglePreview();
    c.TogglePreview();
  }

  /** Exporting and importing the exported document through the handlers
      restores the settings, provided the parser reads back what the
      serializer wrote for them; the preview flag is untouched. */
  method ExportThenImport(c: Customizer, stringify: Settings -> string, parse: string -> Option<Settings>)
    requires parse(stringify(c.settings)) == Some(c.settings)
    modifies c
    ensures c.settings == old(c.settings) && c.previewMode == old(c.previewMode)
  {
    var d := c.HandleExport(stringify);
    c.HandleImport(Some(d.contents), parse);
  }

  /** Two resets in a row leave the same record as one. */
  method ResetTwice(c: Customizer)
    modifies c
    ensures c.settings == Defaults && c.previewMode == old(c.previewMode)
  {
    c.HandleReset();
    var once := c.settings;
    c.HandleReset();
    assert c.settings == once;
  }

  /** Start from the defaults, set the primary colour to "#00ff00", export,
      reset, and import the exported document: the colour reads "#00ff00"
      again and the record equals the exported snapshot. */
  method ExportResetImportScenario(stringify: Settings -> string, parse: string -> Option<Settings>)
    returns (restored: Settings)
    requires parse(stringify(Defaults["primaryColor" := Str("#00ff00")])) == Some(Defaults["primaryColor" := Str("#00ff00")])
    ensures restored == Defaults["primaryColor" := Str("#00ff00")]
    ensures restored["primaryColor"] == Str("#00ff00")
  {
    var c := new Customizer();
    c.UpdateSetting("primaryColor", Str("#00ff00"));
    var snapshot := c.settings;
    var d := c.HandleExport(stringify);
    c.HandleReset();
    c.HandleImport(Some(d.contents), parse);
    restored := c.settings;
    assert restored == snapshot;
  }
}
