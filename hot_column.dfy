/**
 * The column component: it strips the props the table injects, maps the
 * rest to column settings, decides the column's `renderer` and `editor`,
 * and emits the result to its table under its column index.
 */
module HotColumnModel {
  import opened JsValues
  import opened Slots
  import opened SettingsMapper
  import opened HotTableModel

  /**
   * The props the table injects into every column clone it renders: the
   * shared component-renderer map, its bound callbacks, the column index and
   * the column's own children.
   */
  const InjectedProps: set<string> := {
    "_componentRendererColumns", "_emitColumnSettings", "_columnIndex", "_getChildElementByType",
    "_getRendererWrapper", "_getEditorClass", "_getOwnerDocument", "_getEditorCache", "children"}

  /**
   * `internalProps` as written. Its first entry has two leading underscores,
   * while the injected prop (the one `createColumnSettings` reads) has one.
   */
  const InternalPropsAsWritten: seq<string> := [
    "__componentRendererColumns", "_emitColumnSettings", "_columnIndex", "_getChildElementByType",
    "_getRendererWrapper", "_getEditorClass", "_getEditorCache", "_getOwnerDocument",
    "hot-renderer", "hot-editor", "children"]

  /** `internalProps` as intended: the injected component-renderer map is filtered as well. */
  const InternalProps: seq<string> := [
    "_componentRendererColumns", "_emitColumnSettings", "_columnIndex", "_getChildElementByType",
    "_getRendererWrapper", "_getEditorClass", "_getEditorCache", "_getOwnerDocument",
    "hot-renderer", "hot-editor", "children"]

  /** `getSettingsProps` as written: the props whose keys are not in the written list, values unchanged. */
  function SettingsPropsAsWritten(props: map<string, Value>): (r: map<string, Value>)
    ensures forall k :: k in r <==> k in props && k !in InternalPropsAsWritten
    ensures forall k | k in r :: r[k] == props[k]
  {
    map k | k in props && k !in InternalPropsAsWritten :: props[k]
  }

  /**
   * As written, the component-renderer map the table injects survives the
   * filter and ends up, with its value, in the column's mapped settings.
   */
  lemma AsWrittenKeepsRendererMap(props: map<string, Value>)
    requires "_componentRendererColumns" in props
    ensures var mapped := MappedSettings(SettingsPropsAsWritten(props));
      "_componentRendererColumns" in mapped && mapped["_componentRendererColumns"] == props["_componentRendererColumns"]
  {
  }

  /** `getSettingsProps` with the intended list: the non-internal props, each with its own value. */
  function SettingsProps(props: map<string, Value>): (r: map<string, Value>)
    ensures forall k :: k in r <==> k in props && k !in InternalProps
    ensures forall k | k in r :: r[k] == props[k]
  {
    map k | k in props && k !in InternalProps :: props[k]
  }

  /** With the intended list no injected prop reaches the column settings, whatever the props. */
  lemma NoInjectedPropInSettings(props: map<string, Value>)
    ensures forall k | k in InjectedProps :: k !in SettingsProps(props)
  {
  }

  /** `hasProp`: `!!props[name]`, false for an absent prop. */
  function HasProp(props: map<string, Value>, name: string): (r: bool)
    ensures r ==> name in props
    ensures name in props ==> (r <==> Truthy(props[name]))
  {
    Truthy(Lookup(props, name))
  }

  /**
   * What `createColumnSettings` does to the mapped settings props: `renderer`
   * and `editor` are taken from a component child, else from a truthy prop,
   * else `undefined`.
   */
  function WithColumnSlots(mapped: map<string, Value>, props: map<string, Value>, children: seq<Element>,
                           editorCache: map<ClassId, EditorInstance>): map<string, Value>
  {
    var rendererElement := ChildElementByType(children, HotRenderer);
    var editorElement := ExtendedEditorElement(children);
    mapped
      ["renderer" := if rendererElement.Some? then RendererWrapper(rendererElement.value)
                     else if HasProp(props, "renderer") then props["renderer"]
                     else Undefined]
      ["editor" := if editorElement.Some? then EditorClassFor(editorCache, editorElement.value)
                   else if HasProp(props, "editor") then props["editor"]
                   else Undefined]
  }

  /** The settings `createColumnSettings` computes, with the intended `internalProps` list. */
  function ColumnSettings(props: map<string, Value>, children: seq<Element>,
                          editorCache: map<ClassId, EditorInstance>): map<string, Value>
  {
    WithColumnSlots(MappedSettings(SettingsProps(props)), props, children, editorCache)
  }

  /**
   * The settings `createColumnSettings` computes with the `internalProps`
   * list as written: the mapped settings props, which keep a
   * `_componentRendererColumns` prop, plus `renderer` and `editor`.
   */
  function ColumnSettingsAsWritten(props: map<string, Value>, children: seq<Element>,
                                   editorCache: map<ClassId, EditorInstance>): (r: map<string, Value>)
    ensures var mapped := MappedSettings(SettingsPropsAsWritten(props));
      && r.Keys == mapped.Keys + {"renderer", "editor"}
      && (forall k | k in mapped && k != "renderer" && k != "editor" :: r[k] == mapped[k])
    ensures "_componentRendererColumns" in props ==>
              "_componentRendererColumns" in r && r["_componentRendererColumns"] == props["_componentRendererColumns"]
  {
    WithColumnSlots(MappedSettings(SettingsPropsAsWritten(props)), props, children, editorCache)
  }

  /**
   * The written list differs from the intended one only in its first entry,
   * so the written column settings are the intended ones plus the value of
   * the `_componentRendererColumns` prop, the table's shared renderer map
   * (when the typo'd key is not itself a prop).
   */
  lemma ColumnSettingsLeak(props: map<string, Value>, children: seq<Element>,
                           editorCache: map<ClassId, EditorInstance>)
    requires "__componentRendererColumns" !in props
    ensures var written := ColumnSettingsAsWritten(props, children, editorCache);
      var intended := ColumnSettings(props, children, editorCache);
      written == if "_componentRendererColumns" in props
                 then intended["_componentRendererColumns" := props["_componentRendererColumns"]]
                 else intended
  {
    var leak := "_componentRendererColumns";
    if leak in props {
      WrittenListAddsLeak(props);
      MappedSettingsUpdate(SettingsProps(props), leak, props[leak]);
      SlotsKeepOtherUpdate(MappedSettings(SettingsProps(props)), leak, props[leak], props, children, editorCache);
    } else {
      assert SettingsPropsAsWritten(props) == SettingsProps(props);
    }
  }

  /** Setting a key other than `renderer` and `editor` commutes with choosing those two. */
  lemma SlotsKeepOtherUpdate(mapped: map<string, Value>, key: string, v: Value, props: map<string, Value>,
                             children: seq<Element>, editorCache: map<ClassId, EditorInstance>)
    requires key != "renderer" && key != "editor"
    ensures WithColumnSlots(mapped[key := v], props, children, editorCache)
         == WithColumnSlots(mapped, props, children, editorCache)[key := v]
  {
  }

  /** Without the typo'd key among the props, the written filter keeps exactly one more prop. */
  lemma WrittenListAddsLeak(props: map<string, Value>)
    requires "__componentRendererColumns" !in props && "_componentRendererColumns" in props
    ensures SettingsPropsAsWritten(props)
         == SettingsProps(props)["_componentRendererColumns" := props["_componentRendererColumns"]]
  {
  }

  /**
   * `renderer`: the wrapper of the earliest `hot-renderer` child; without
   * one, a truthy `renderer` prop; else `undefined` (a column never falls
   * back to a nested `settings` entry here).
   */
  lemma ColumnRendererPrecedence(props: map<string, Value>, children: seq<Element>,
                                 editorCache: map<ClassId, EditorInstance>)
    ensures var r := ColumnSettings(props, children, editorCache);
      var none := forall i | 0 <= i < |children| :: !FillsSlot(children[i], HotRenderer);
      && (forall i | IsFirstInSlot(children, HotRenderer, i) :: r["renderer"] == RendererWrapper(children[i]))
      && (none && Truthy(Lookup(props, "renderer")) ==> r["renderer"] == props["renderer"])
      && (none && !Truthy(Lookup(props, "renderer")) ==> r["renderer"] == Undefined)
  {
  }

  /** `editor` follows the same three-way precedence with the `hot-editor` slot. */
  lemma ColumnEditorPrecedence(props: map<string, Value>, children: seq<Element>,
                               editorCache: map<ClassId, EditorInstance>)
    ensures var r := ColumnSettings(props, children, editorCache);
      var none := forall i | 0 <= i < |children| :: !FillsSlot(children[i], HotEditor);
      && (forall i | IsFirstInSlot(children, HotEditor, i) ::
            r["editor"] == EditorClassFor(editorCache, children[i]))
      && (none && Truthy(Lookup(props, "editor")) ==> r["editor"] == props["editor"])
      && (none && !Truthy(Lookup(props, "editor")) ==> r["editor"] == Undefined)
  {
  }

  /**
   * Every other key is a non-internal prop (or an entry of a nested
   * `settings` prop) with its value, as `getSettings` maps it.
   */
  lemma ColumnOtherKeys(props: map<string, Value>, children: seq<Element>,
                        editorCache: map<ClassId, EditorInstance>)
    ensures var r := ColumnSettings(props, children, editorCache);
      var mapped := MappedSettings(SettingsProps(props));
      && r.Keys == mapped.Keys + {"renderer", "editor"}
      && (forall k | k in props && k !in InternalProps && k !in Skipped && k != "renderer" && k != "editor" ::
            r[k] == props[k])
      && (forall k | k in mapped && k != "renderer" && k != "editor" :: r[k] == mapped[k])
  {
  }

  class HotColumn {
    /** The owning table, whose bound methods and maps the table injects as props. */
    const table: HotTable
    /** `_columnIndex`: the column's position among the table's columns. */
    var columnIndex: nat
    /** The column's props (`children` kept apart); the framework replaces them on each update. */
    var props: map<string, Value>
    var children: seq<Element>

    /** `columnSettings`: `undefined` until `createColumnSettings` first runs. */
    var columnSettings: Value

    constructor (table: HotTable, columnIndex: nat, props: map<string, Value>, children: seq<Element>)
      ensures this.table == table && this.columnIndex == columnIndex
      ensures this.props == props && this.children == children
      ensures columnSettings == Undefined
    {
      this.table := table;
      this.columnIndex := columnIndex;
      this.props := props;
      this.children := children;
      columnSettings := Undefined;
    }

    /**
     * `createColumnSettings`: computes the column's settings and marks the
     * column in the table's component-renderer map exactly when a renderer
     * child exists; no other table state changes.
     */
    method CreateColumnSettings()
      modifies this`columnSettings, table`componentRendererColumns
      ensures columnSettings == Obj(ColumnSettings(props, children, table.editorCache))
      ensures table.componentRendererColumns ==
                if ChildElementByType(children, HotRenderer).Some?
                then old(table.componentRendererColumns)[Column(columnIndex) := true]
                else old(table.componentRendererColumns)
    {
      var rendererElement := ChildElementByType(children, HotRenderer);
      var editorElement := ExtendedEditorElement(children);
      var settings := GetSettings(SettingsProps(props));
      if rendererElement.Some? {
        settings := settings["renderer" := RendererWrapper(rendererElement.value)];
        table.componentRendererColumns := table.componentRendererColumns[Column(columnIndex) := true];
      } else if HasProp(props, "renderer") {
        settings := settings["renderer" := props["renderer"]];
      } else {
        settings := settings["renderer" := Undefined];
      }
      if editorElement.Some? {
        settings := settings["editor" := EditorClassFor(table.editorCache, editorElement.value)];
      } else if HasProp(props, "editor") {
        settings := settings["editor" := props["editor"]];
      } else {
        settings := settings["editor" := Undefined];
      }
      columnSettings := Obj(settings);
    }

    /** `emitColumnSettings`: hands the settings to the table's `setHotColumnSettings`. */
    method EmitColumnSettings()
      modifies table`columnSettings
      ensures table.columnSettings == ArrayWrite(old(table.columnSettings), columnIndex, columnSettings)
    {
      table.SetHotColumnSettings(columnSettings, columnIndex);
    }

    /**
     * `componentDidUpdate` after the framework hands the column new props:
     * the settings are recomputed from the new props and emitted again.
     */
    method ReceiveProps(newProps: map<string, Value>, newChildren: seq<Element>, newColumnIndex: nat)
      modifies this`props, this`children, this`columnIndex, this`columnSettings,
               table`componentRendererColumns, table`columnSettings
      ensures props == newProps && children == newChildren && columnIndex == newColumnIndex
      ensures columnSettings == Obj(ColumnSettings(newProps, newChildren, table.editorCache))
      ensures table.columnSettings == ArrayWrite(old(table.columnSettings), newColumnIndex, columnSettings)
      ensures table.componentRendererColumns ==
                if ChildElementByType(newChildren, HotRenderer).Some?
                then old(table.componentRendererColumns)[Column(newColumnIndex) := true]
                else old(table.componentRendererColumns)
    {
      props, children, columnIndex := newProps, newChildren, newColumnIndex;
      CreateColumnSettings();
      EmitColumnSettings();
    }
  }
}
