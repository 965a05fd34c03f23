/**
 * The table component: the global settings it hands to the grid engine,
 * and the caches it keeps between the engine's render cycles (rendered
 * cells by coordinate, editor components by class, which columns use a
 * component-based renderer, the settings emitted by each column, and the
 * portals waiting to be mounted).
 */
module HotTableModel {
  import opened JsValues
  import opened Slots
  import opened SettingsMapper
  import opened CellKeys

  /** A table cell element (`TD`): its identity and its `ghost-table` attribute, if any. */
  datatype Cell = Cell(id: nat, ghostTableAttribute: Option<string>)

  /** `TD.getAttribute('ghost-table')` is truthy: the cell belongs to the engine's measuring table. */
  predicate IsGhostTableCell(td: Cell) {
    td.ghostTableAttribute.Some? && td.ghostTableAttribute.value != ""
  }

  /**
   * A portal that mounts the renderer element into a cell, with the props
   * the renderer component receives (`isRenderer: true` is implied).
   */
  datatype RendererPortal =
    RendererPortal(renderer: Element, cell: Cell, row: nat, col: nat, prop: Value, value: Value, cellProperties: Value)

  /**
   * The portal holding the global editor component. Creating it is DOM work
   * outside this model, so no method builds one; only `clearCache`'s reset
   * of the field to `null` is modelled.
   */
  datatype EditorPortal = EditorPortal(editor: Element)

  /** A key of `componentRendererColumns`: a column index or the string `'global'`. */
  datatype RendererColumn = Column(index: nat) | Global

  /** How a call of a renderer wrapper ends: it returns the cell, or throws a `TypeError`. */
  datatype RenderOutcome = Returned(td: Option<Cell>) | ThrewTypeError

  /** The grid engine instance, seen only through its `isDestroyed` flag. */
  class Engine {
    var isDestroyed: bool

    constructor ()
      ensures !isDestroyed
    {
      isDestroyed := false;
    }
  }

  /**
   * `getEditorClass`: an editor class made around the component cached under
   * the element's original class, or around `undefined` when none is cached.
   * The table's methods apply it to the editor cache as it is at call time.
   */
  function EditorClassFor(editorCache: map<ClassId, EditorInstance>, editorElement: Element): (r: Value)
    ensures r.CustomEditor?
    ensures var editorClass := OriginalEditorClass(Some(editorElement)).value;
      && (r.component.Some? <==> editorClass in editorCache)
      && (r.component.Some? ==> r.component.value == editorCache[editorClass])
  {
    var editorClass := OriginalEditorClass(Some(editorElement)).value;
    CustomEditor(if editorClass in editorCache then Some(editorCache[editorClass]) else None)
  }

  /**
   * Once the `emitEditorInstance` callback of the extended `hot-editor` clone
   * has stored an instance, the editor class built for that child wraps it.
   */
  lemma EmittedEditorIsWrapped(editorCache: map<ClassId, EditorInstance>, children: seq<Element>,
                               instance: EditorInstance)
    requires ExtendedEditorElement(children).Some?
    ensures var clone := ExtendedEditorElement(children).value;
      var child := ChildElementByType(children, HotEditor).value;
      EditorClassFor(editorCache[Lookup(clone.props, "emitEditorInstance").editorClass := instance], child)
        == CustomEditor(Some(instance))
  {
  }

  /** `props.X || (props.settings ? props.settings.X : undefined)`. */
  function PropOrNestedSetting(props: map<string, Value>, key: string): Value {
    var settings := Lookup(props, "settings");
    Or(Lookup(props, key), if Truthy(settings) then Get(settings, key) else Undefined)
  }

  /**
   * The settings `createNewGlobalSettings` returns: the mapped props, with
   * `columns` taken from the accumulated column settings when there are
   * any, and `editor` and `renderer` from a component child, else a truthy
   * prop, else the nested `settings` entry.
   */
  function GlobalSettings(props: map<string, Value>, children: seq<Element>, columnSettings: seq<Value>,
                          editorCache: map<ClassId, EditorInstance>): map<string, Value>
  {
    var mapped := MappedSettings(props);
    var rendererNode := ChildElementByType(children, HotRenderer);
    var editorNode := ExtendedEditorElement(children);
    mapped
      ["columns" := if |columnSettings| != 0 then Arr(columnSettings) else Lookup(mapped, "columns")]
      ["editor" := if editorNode.Some? then EditorClassFor(editorCache, editorNode.value)
                   else PropOrNestedSetting(props, "editor")]
      ["renderer" := if rendererNode.Some? then RendererWrapper(rendererNode.value)
                     else PropOrNestedSetting(props, "renderer")]
  }

  /** `columns`: the accumulated column settings when non-empty, else the mapped `columns` entry. */
  lemma GlobalColumns(props: map<string, Value>, children: seq<Element>, columnSettings: seq<Value>,
                      editorCache: map<ClassId, EditorInstance>)
    ensures var r := GlobalSettings(props, children, columnSettings, editorCache);
      && "columns" in r
      && (|columnSettings| != 0 ==> r["columns"] == Arr(columnSettings))
      && (|columnSettings| == 0 && "columns" in props ==> r["columns"] == props["columns"])
      && (|columnSettings| == 0 && "columns" !in props ==>
            r["columns"] == Lookup(NestedSettings(props), "columns"))
  {
  }

  /**
   * `renderer`: the wrapper of the earliest `hot-renderer` child; without
   * one, a truthy `renderer` prop; else `settings.renderer` when `settings`
   * is truthy; else `undefined`.
   */
  lemma GlobalRendererPrecedence(props: map<string, Value>, children: seq<Element>, columnSettings: seq<Value>,
                                 editorCache: map<ClassId, EditorInstance>)
    ensures var r := GlobalSettings(props, children, columnSettings, editorCache);
      var none := forall i | 0 <= i < |children| :: !FillsSlot(children[i], HotRenderer);
      && (forall i | IsFirstInSlot(children, HotRenderer, i) :: r["renderer"] == RendererWrapper(children[i]))
      && (none && Truthy(Lookup(props, "renderer")) ==> r["renderer"] == props["renderer"])
      && (none && !Truthy(Lookup(props, "renderer")) && Truthy(Lookup(props, "settings")) ==>
            r["renderer"] == Get(props["settings"], "renderer"))
      && (none && !Truthy(Lookup(props, "renderer")) && !Truthy(Lookup(props, "settings")) ==>
            r["renderer"] == Undefined)
  {
  }

  /**
   * `editor`: the class made for the earliest `hot-editor` child's original
   * class; without one, a truthy `editor` prop; else `settings.editor` when
   * `settings` is truthy; else `undefined`.
   */
  lemma GlobalEditorPrecedence(props: map<string, Value>, children: seq<Element>, columnSettings: seq<Value>,
                               editorCache: map<ClassId, EditorInstance>)
    ensures var r := GlobalSettings(props, children, columnSettings, editorCache);
      var none := forall i | 0 <= i < |children| :: !FillsSlot(children[i], HotEditor);
      && (forall i | IsFirstInSlot(children, HotEditor, i) ::
            r["editor"] == EditorClassFor(editorCache, children[i]))
      && (none && Truthy(Lookup(props, "editor")) ==> r["editor"] == props["editor"])
      && (none && !Truthy(Lookup(props, "editor")) && Truthy(Lookup(props, "settings")) ==>
            r["editor"] == Get(props["settings"], "editor"))
      && (none && !Truthy(Lookup(props, "editor")) && !Truthy(Lookup(props, "settings")) ==>
            r["editor"] == Undefined)
  {
  }

  /** Every other key is the mapped setting, untouched. */
  lemma GlobalOtherKeys(props: map<string, Value>, children: seq<Element>, columnSettings: seq<Value>,
                        editorCache: map<ClassId, EditorInstance>)
    ensures var r := GlobalSettings(props, children, columnSettings, editorCache);
      && r.Keys == MappedSettings(props).Keys + {"columns", "editor", "renderer"}
      && forall k | k in MappedSettings(props) && k !in {"columns", "editor", "renderer"} ::
           r[k] == MappedSettings(props)[k]
  {
  }

  class HotTable {
    /** The component's props (`children` kept apart); the framework assigns them. */
    var props: map<string, Value>
    var children: seq<Element>

    /** `__hotInstance`, written by the `hotInstance` setter. */
    var hotInstanceRef: Engine?

    /** `columnSettings`: the settings each column emitted, by column index. */
    var columnSettings: seq<Value>

    /** `portalCacheArray`: renderer portals created during the current render cycle. */
    var portalCacheArray: seq<RendererPortal>

    var globalEditorPortal: Option<EditorPortal>

    /** `renderedCellCache`: the last `TD` rendered at each `row-col` key. */
    var renderedCellCache: map<string, Option<Cell>>

    /** `editorCache`: editor component instances by original editor class. */
    var editorCache: map<ClassId, EditorInstance>

    /** `componentRendererColumns`: columns (or `'global'`) rendered by a component. */
    var componentRendererColumns: map<RendererColumn, bool>

    constructor (props: map<string, Value>, children: seq<Element>)
      ensures this.props == props && this.children == children
      ensures hotInstanceRef == null && columnSettings == [] && portalCacheArray == []
      ensures globalEditorPortal.None? && renderedCellCache == map[] && editorCache == map[]
      ensures componentRendererColumns == map[]
    {
      this.props := props;
      this.children := children;
      hotInstanceRef := null;
      columnSettings := [];
      portalCacheArray := [];
      globalEditorPortal := None;
      renderedCellCache := map[];
      editorCache := map[];
      componentRendererColumns := map[];
    }

    /**
     * The `hotInstance` getter: `null` when the stored instance has been
     * destroyed (the source also logs a warning then), the stored value
     * otherwise, including `null` before an instance exists.
     */
    function HotInstance(): (r: Engine?)
      reads this, hotInstanceRef
      ensures r == null <==> hotInstanceRef == null || hotInstanceRef.isDestroyed
      ensures r != null ==> r == hotInstanceRef
    {
      if hotInstanceRef == null || !hotInstanceRef.isDestroyed then hotInstanceRef else null
    }

    /** The `hotInstance` setter. */
    method SetHotInstance(instance: Engine?)
      modifies this`hotInstanceRef
      ensures hotInstanceRef == instance
    {
      hotInstanceRef := instance;
    }

    /**
     * `clearCache`: drops the global editor portal and empties the editor
     * cache, the rendered-cell cache and the component-renderer map; the
     * column settings and pending portals are kept.
     */
    method ClearCache()
      modifies this`globalEditorPortal, this`editorCache, this`renderedCellCache, this`componentRendererColumns
      ensures globalEditorPortal.None?
      ensures editorCache == map[] && renderedCellCache == map[] && componentRendererColumns == map[]
    {
      globalEditorPortal := None;
      editorCache := map[];
      renderedCellCache := map[];
      componentRendererColumns := map[];
    }

    /** The `beforeViewRender` hook: only the rendered-cell cache is emptied. */
    method HandsontableBeforeViewRender()
      modifies this`renderedCellCache
      ensures renderedCellCache == map[]
    {
      renderedCellCache := map[];
    }

    /** `setHotColumnSettings`: stores a column's settings at its index and changes no other entry. */
    method SetHotColumnSettings(settings: Value, columnIndex: nat)
      modifies this`columnSettings
      ensures columnSettings == ArrayWrite(old(columnSettings), columnIndex, settings)
      ensures columnSettings[columnIndex] == settings
      ensures forall j | 0 <= j < |old(columnSettings)| && j != columnIndex :: columnSettings[j] == old(columnSettings)[j]
    {
      columnSettings := ArrayWrite(columnSettings, columnIndex, settings);
    }

    /** The `emitEditorInstance` callback: an editor component registers itself under its class. */
    method EmitEditorInstance(editorClass: ClassId, instance: EditorInstance)
      modifies this`editorCache
      ensures editorCache == old(editorCache)[editorClass := instance]
    {
      editorCache := editorCache[editorClass := instance];
    }

    /**
     * One call of the renderer wrapper that `getRendererWrapper` builds for
     * `renderer`. When the cell's key is already cached, the cached cell's
     * markup is copied into `TD`, which throws when either is `null`. A
     * truthy `TD` outside the ghost table gets a new portal; in every
     * non-throwing case the cache maps the key to `TD`, which is returned.
     */
    method RenderCell(renderer: Element, td: Option<Cell>, row: nat, col: nat, prop: Value, value: Value,
                      cellProperties: Value)
      returns (outcome: RenderOutcome)
      modifies this`renderedCellCache, this`portalCacheArray
      ensures var key := CellKey(row, col);
        if key in old(renderedCellCache) && (td.None? || old(renderedCellCache)[key].None?) then
          && outcome == ThrewTypeError
          && renderedCellCache == old(renderedCellCache)
          && portalCacheArray == old(portalCacheArray)
        else
          && outcome == Returned(td)
          && renderedCellCache == old(renderedCellCache)[key := td]
          && portalCacheArray == old(portalCacheArray) +
               (if td.Some? && !IsGhostTableCell(td.value)
                then [RendererPortal(renderer, td.value, row, col, prop, value, cellProperties)] else [])
      ensures forall r: nat, c: nat | (r != row || c != col) && CellKey(r, c) in old(renderedCellCache) ::
                CellKey(r, c) in renderedCellCache && renderedCellCache[CellKey(r, c)] == old(renderedCellCache)[CellKey(r, c)]
    {
      var key := CellKey(row, col);
      if key in renderedCellCache {
        if td.None? || renderedCellCache[key].None? {
          return ThrewTypeError;
        }
      }
      if td.Some? && !IsGhostTableCell(td.value) {
        portalCacheArray := portalCacheArray + [RendererPortal(renderer, td.value, row, col, prop, value, cellProperties)];
      }
      renderedCellCache := renderedCellCache[key := td];
      outcome := Returned(td);
      forall r: nat, c: nat | CellKey(r, c) == key
        ensures r == row && c == col
      {
        CellKeyInjective(r, c, row, col);
      }
    }

    /**
     * `createNewGlobalSettings`: builds the global settings and records
     * `'global'` in the component-renderer map exactly when a global
     * renderer child exists.
     */
    method CreateNewGlobalSettings() returns (newSettings: map<string, Value>)
      modifies this`componentRendererColumns
      ensures newSettings == GlobalSettings(props, children, columnSettings, editorCache)
      ensures componentRendererColumns ==
                if ChildElementByType(children, HotRenderer).Some? then old(componentRendererColumns)[Global := true]
                else old(componentRendererColumns)
    {
      newSettings := GetSettings(props);
      var globalRendererNode := ChildElementByType(children, HotRenderer);
      var globalEditorNode := ExtendedEditorElement(children);
      newSettings := newSettings["columns" := if |columnSettings| != 0 then Arr(columnSettings)
                                              else Lookup(newSettings, "columns")];
      if globalEditorNode.Some? {
        newSettings := newSettings["editor" := EditorClassFor(editorCache, globalEditorNode.value)];
      } else {
        newSettings := newSettings["editor" := PropOrNestedSetting(props, "editor")];
      }
      if globalRendererNode.Some? {
        newSettings := newSettings["renderer" := RendererWrapper(globalRendererNode.value)];
        componentRendererColumns := componentRendererColumns[Global := true];
      } else {
        newSettings := newSettings["renderer" := PropOrNestedSetting(props, "renderer")];
      }
    }
  }
}
