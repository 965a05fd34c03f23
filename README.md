# Handsontable adapter for React: settings precedence and cache bookkeeping

This project models the part of the React wrapper around the Handsontable grid
engine that holds logic of its own:

- how a component's props become an engine settings object (`SettingsMapper.getSettings`,
  `HotColumn.getSettingsProps`);
- how a table or column chooses its `renderer`, `editor` and `columns` settings:
  a component child marked `hot-renderer` / `hot-editor` first, then an explicit
  prop, then (for the table) the nested `settings` object;
- the caches the `HotTable` component keeps between the engine's render cycles
  (rendered cells by `row-col` key, editor components by class, which columns
  use a component renderer, the settings each column emits, the pending
  renderer portals and the global editor portal).

JavaScript values are modelled by the `JsValues.Value` datatype, with truthiness
(`||`, `!!`, `if (x)`), the `!== undefined` test and property reads written out.
A framework element is its type and its props map; children are a sequence of
elements. The functions the table manufactures (renderer wrappers, editor
classes, the `emitEditorInstance` callback) are opaque tokens that record what
they were built from. The stateful components are Dafny classes whose methods
change exactly the fields their `modifies` clauses name, so every other cache is
unchanged by each call.

Files: `values.dfy` (JavaScript values), `cell_keys.dfy` (the `row-col` key),
`slots.dfy` (slot lookup among children), `settings_mapper.dfy`,
`react_version.dfy` (the `UNSAFE_` prefix version test), `hot_table.dfy`,
`hot_column.dfy`.

## Model

| member | source | states |
|---|---|---|
| `SettingsMapper.GetSettings` | react/es/react-handsontable.js:403-423 | the two loops build exactly the mapped settings: nested `settings` entries first, then every top-level prop except `settings` and `children` |
| `SettingsMapper.MappedSettingsPrecedence` | react/es/react-handsontable.js:406-420 | key set is the nested keys plus the top-level keys minus `settings`/`children`; a top-level value overrides a nested one; a nested-only key (including a nested `settings` or `children`) keeps its nested value |
| `SettingsMapper.FalsySettingsIgnored` | react/es/react-handsontable.js:406 | a falsy or missing `settings` prop contributes nothing: the result is the props without `settings` and `children` |
| `Slots.Find` | react/es/react-handsontable.js:223-225 | the search returns `null` exactly when no child defines the slot prop, otherwise the earliest child that does |
| `Slots.ChildElementByType` | react/es/react-handsontable.js:214-230 | the lone-child truthy shortcut and the fall-through search agree: the result is `null` exactly when no child has `props[type] !== undefined`, else the earliest such child |
| `Slots.OriginalEditorClass` | react/es/react-handsontable.js:238-244 | `null` exactly for no element; otherwise the type's `WrappedComponent` when present, else the type |
| `Slots.ExtendedEditorElement` | react/es/react-handsontable.js:305-319 | `null` exactly when there is no `hot-editor` child; otherwise that child with the same type, its props plus `isEditor: true` and an `emitEditorInstance` callback bound to its original class |
| `HotColumnModel.SettingsPropsAsWritten` | react/es/react-handsontable.js:488-498 | as written: the result has exactly the prop keys not in the 11-entry `internalProps` list, each with its unchanged value |
| `HotColumnModel.AsWrittenKeepsRendererMap` | react/es/react-handsontable.js:491 | as written, an injected `_componentRendererColumns` prop passes the filter and appears, with its value, in the column's mapped settings |
| `HotColumnModel.SettingsProps` | react/es/react-handsontable.js:488-498 | with the intended list: the result has exactly the prop keys not internal, each with its unchanged value |
| `HotColumnModel.NoInjectedPropInSettings` | react/es/react-handsontable.js:2546-2555 | with the intended list, none of the props the table injects into a column reaches its settings |
| `HotColumnModel.ColumnRendererPrecedence` | react/es/react-handsontable.js:529-542 | column `renderer`: the wrapper of the earliest `hot-renderer` child, else a truthy `renderer` prop, else `undefined` |
| `HotColumnModel.ColumnEditorPrecedence` | react/es/react-handsontable.js:544-550 | column `editor`: the editor class for the earliest `hot-editor` child's cached component, else a truthy `editor` prop, else `undefined` |
| `HotColumnModel.HasProp` | react/es/react-handsontable.js:507-510 | a prop is present exactly when it is defined and truthy; an absent prop is not |
| `HotColumnModel.ColumnOtherKeys` | react/es/react-handsontable.js:532 | with the intended `internalProps` list: the column settings have the mapped settings-prop keys plus `renderer` and `editor`, every other key with its mapped value |
| `HotColumnModel.ColumnSettingsAsWritten` | react/es/react-handsontable.js:527-551 | with the written list: the mapped settings props plus `renderer` and `editor` chosen as `createColumnSettings` does; a `_componentRendererColumns` prop is kept with its value |
| `HotColumnModel.ColumnSettingsLeak` | react/es/react-handsontable.js:491-497 | the column settings computed with the written list are those computed with the intended list plus the `_componentRendererColumns` prop's value, when that prop is present |
| `HotColumnModel.HotColumn.CreateColumnSettings` | react/es/react-handsontable.js:527-551 | with the intended `internalProps` list: the column settings become the computed settings; the table's component-renderer map gains `columnIndex -> true` exactly when a renderer child exists and is otherwise untouched |
| `HotColumnModel.HotColumn.ReceiveProps` | react/es/react-handsontable.js:619-623 | with the intended `internalProps` list: after an update with new props, children and index, the settings are recomputed from the new props, written into the table's column settings at the new index, and the renderer map is marked as `createColumnSettings` does |
| `HotColumnModel.HotColumn.EmitColumnSettings` | react/es/react-handsontable.js:576-579 | the table's column settings array is written at this column's index with this column's settings |
| `HotColumnModel.HotColumn.constructor` | react/es/react-handsontable.js:440-456 | a new column holds its table, index, props and children, with no settings yet |
| `HotTableModel.EditorClassFor` | react/es/react-handsontable.js:2233-2238 | the editor class wraps the component cached under the element's original class exactly when the cache has an entry for that class, and wraps nothing otherwise |
| `HotTableModel.EmittedEditorIsWrapped` | react/es/react-handsontable.js:2233-2238 | once the extended `hot-editor` clone's `emitEditorInstance` callback has stored an instance, the editor class built for that child wraps that instance |
| `HotTableModel.GlobalColumns` | react/es/react-handsontable.js:2356 | `columns` is the accumulated column settings when non-empty, otherwise the mapped `columns` prop (top-level, else nested) |
| `HotTableModel.GlobalRendererPrecedence` | react/es/react-handsontable.js:2364-2369 | table `renderer`: earliest `hot-renderer` child's wrapper, else truthy prop, else `settings.renderer` when `settings` is truthy, else `undefined` |
| `HotTableModel.GlobalEditorPrecedence` | react/es/react-handsontable.js:2358-2362 | table `editor`: editor class for the earliest `hot-editor` child, else truthy prop, else `settings.editor` when `settings` is truthy, else `undefined` |
| `HotTableModel.GlobalOtherKeys` | react/es/react-handsontable.js:2352-2372 | the global settings have the mapped keys plus `columns`, `editor`, `renderer`, every other key with its mapped value |
| `HotTableModel.HotTable.CreateNewGlobalSettings` | react/es/react-handsontable.js:2351-2373 | returns the global settings; `'global'` is set in the component-renderer map exactly when a global renderer child exists |
| `HotTableModel.HotTable.constructor` | react/es/react-handsontable.js:1988-2070 | a new table has no engine instance, no column settings, no pending portals, no global editor portal and empty caches |
| `HotTableModel.HotTable.HotInstance` | react/es/react-handsontable.js:2084-2092 | the getter returns `null` exactly when nothing is stored or the stored instance is destroyed, and the stored instance otherwise |
| `HotTableModel.HotTable.SetHotInstance` | react/es/react-handsontable.js:2098-2100 | the setter stores the given instance |
| `HotTableModel.HotTable.ClearCache` | react/es/react-handsontable.js:2150-2158 | the editor cache, rendered-cell cache and component-renderer map are empty and the global editor portal is `null`; nothing else changes |
| `HotTableModel.HotTable.HandsontableBeforeViewRender` | react/es/react-handsontable.js:2405-2408 | only the rendered-cell cache is emptied |
| `HotTableModel.HotTable.SetHotColumnSettings` | react/es/react-handsontable.js:2396-2399 | entry `columnIndex` becomes the given settings and every other existing entry is unchanged |
| `HotTableModel.HotTable.EmitEditorInstance` | react/es/react-handsontable.js:314-316 | the editor cache maps the editor's original class to the emitted instance |
| `HotTableModel.HotTable.RenderCell` | react/es/react-handsontable.js:2192-2222 | one renderer-wrapper call: throws when the key is cached and `TD` or the cached cell is `null`; otherwise the cache maps `row-col` to `TD`, the entries of other cells are kept, a portal carrying the renderer element, `TD`, `row`, `col`, `prop`, `value` and `cellProperties` is appended exactly when `TD` is truthy and not a ghost-table cell, and `TD` is returned |
| `JsValues.ArrayWrite` | react/es/react-handsontable.js:2398 | a JavaScript array write: index `i` holds the value, other indices their old value, and a write past the end pads with `undefined` |
| `CellKeys.Digits` | react/es/react-handsontable.js:2195 | the decimal rendering of a row or column index is a non-empty string of digits |
| `CellKeys.ParseDigitsOfDigits` | react/es/react-handsontable.js:2195 | reading the decimal rendering back gives the number |
| `CellKeys.FirstDashAfterDigits` | react/es/react-handsontable.js:2195 | in `digits-rest` the first dash is right after the digits |
| `CellKeys.CellKeyInjective` | react/es/react-handsontable.js:2195 | distinct cells have distinct `row-col` cache keys |
| `ReactVersion.ShouldPrefixAsWritten` | react/es/react-handsontable.js:379 | the version test as written never prefixes a version older than 16.3, and on major version 16 prefixes exactly from minor 3 |
| `ReactVersion.ShouldPrefix` | react/es/react-handsontable.js:370-379 | the intended test: every major version past 16 is prefixed, none before 16, and on 16 exactly from minor 3 |
| `ReactVersion.AsWrittenSkipsLaterMajor` | react/es/react-handsontable.js:379 | version 17.0 is later than 16.3 yet the test as written rejects it |
| `ReactVersion.ShouldPrefixMonotone` | react/es/react-handsontable.js:379 | the intended test accepts every version after one it accepts |
| `ReactVersion.ShouldPrefixOnSixteen` | react/es/react-handsontable.js:379 | on major version 16 the intended and written tests agree: prefix from 16.3 |

## Left out

- React lifecycle orchestration (`componentWill*`, `componentDid*`, `render`, `PortalManager`) and the `setState` callback of `handsontableAfterViewRender` that empties the portal array: host-framework scheduling. The exception is the column's `componentDidUpdate`, modelled by `HotColumn.ReceiveProps`; its `componentDidMount` makes the same two calls on the props the column was constructed with.
- DOM work: `createEditorPortal`, `removeEditorContainers` (called by `clearCache`), `createPortal`, the `innerHTML` copy and child removal inside the renderer wrapper, and `getContainerAttributesProps` with its random id. A renderer portal is recorded by the element it mounts and the props it passes (`TD`, `row`, `col`, `prop`, `value`, `cellProperties`; `isRenderer: true` is implied), not by its random key or container.
- `createGlobalEditorPortal`, `createLocalEditorPortal` and the local editor portal getter and setter: they only store the result of DOM portal creation.
- `makeEditorClass` and the forwarding methods of `BaseEditorComponent`: they delegate to the engine's editor prototype, which is not part of this model. `getEditorClass` yields a token recording the cached editor component it wraps.
- `displayAutoSizeWarning`, `warn` and the console warning in the `hotInstance` getter: console output and engine plugin queries.
- `updateHot`, `getOwnerDocument` and the other plain getters and setters: they forward to the engine or return a field.
- The parsing half of `addUnsafePrefixes` (`parseInt` of the framework version) and the renaming of the lifecycle methods: only the version test is modelled. Nothing else in the model depends on it, so both the written and the intended test stand alone (see Findings).
- Babel helpers and vendored libraries (react-is, object-assign, prop-types) and the type declaration files: not logic of this adapter.
- `React.Children.toArray` and `count`: children are given as the already flattened sequence of elements; text, `null` and boolean children are not modelled.
- A non-object `settings` prop (a string or an array, whose index keys a `for…in` loop would visit) contributes no entries in the model.
- Numbers are integers without `NaN`; row and column indices are non-negative integers below 10^21, where JavaScript writes them in plain decimal.
- A JavaScript array write past the end leaves holes; the model fills them with `undefined`, which is what reading them gives.
- `getSettingsProps` assigns the same constant list to `this.internalProps` on every call; the model keeps that list as a constant. The column model uses the intended list (see Findings); `SettingsPropsAsWritten` keeps the written one.
- HotColumnModel.HotColumn.CreateColumnSettings: computes the settings with the intended `internalProps` list, so it omits the `_componentRendererColumns` entry the source copies into every rendered column's settings; `ColumnSettingsAsWritten` and `ColumnSettingsLeak` state what the written list gives (see Findings).
- HotColumnModel.HotColumn.ReceiveProps: recomputes and emits the settings with the intended `internalProps` list, so neither the column's settings nor the table's column settings array hold the `_componentRendererColumns` entry the source's `componentDidUpdate` produces; `ColumnSettingsLeak` states the difference.
- HotColumnModel.ColumnOtherKeys: describes the intended column settings, without the leaked `_componentRendererColumns` key; `ColumnSettingsLeak` states the difference.
- HotColumnModel.ColumnSettingsLeak: assumes the props hold no `__componentRendererColumns` key (the name the written list filters); the table never injects one.
- `columns` in the global settings is the very array object the table keeps updating; the model copies its current value.

## Findings

| source | as written | input that shows it | evidently intended | confidence | as-written member | corrected member |
|---|---|---|---|---|---|---|
| react/es/react-handsontable.js:379 | `major >= 16 && minor >= 3` | framework version 17.0 (or 18.2): major 17, minor 0 | prefix every version from 16.3 on, where the `UNSAFE_` names exist | not executed | `ReactVersion.AsWrittenSkipsLaterMajor` | `ReactVersion.ShouldPrefixMonotone` |
| react/es/react-handsontable.js:491 | `internalProps` names `'__componentRendererColumns'` (two underscores) | any column rendered by a table: the table injects `_componentRendererColumns` (line 2547), which is not in the list | filter the injected `_componentRendererColumns` prop like the other injected props | not executed | `HotColumnModel.AsWrittenKeepsRendererMap` | `HotColumnModel.NoInjectedPropInSettings` |
