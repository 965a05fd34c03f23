/**
 * The JavaScript values the adapter moves between its props, its settings
 * objects and the grid engine, reduced to what the adapter's code inspects:
 * truthiness (`||`, `!!`, `if (x)`), the `!== undefined` test, and property
 * reads on plain objects.
 */
module JsValues {

  datatype Option<+T> = None | Some(value: T)

  /** Identity of a component class or function (an element's `type`). */
  type ClassId = nat

  /** Identity of an editor component instance kept in the editor cache. */
  type EditorInstance = nat

  /** An element's `type`, with its optional `WrappedComponent` static. */
  datatype ComponentType = ComponentType(id: ClassId, wrappedComponent: Option<ClassId>)

  /** A framework element: its type and its props object. */
  datatype Element = Element(elementType: ComponentType, props: map<string, Value>)

  /**
   * A JavaScript value. `Fn` is any function or class passed in by the user;
   * `RendererWrapper` and `CustomEditor` are the opaque functions the table
   * manufactures: the renderer closure for a renderer element, the editor
   * class built around a cached editor component (or around `undefined`
   * when the cache has none), and the `emitEditorInstance` callback that
   * stores an editor component in the cache under its original class.
   */
  datatype Value =
    | Undefined
    | Null
    | Bool(b: bool)
    | Num(n: int)
    | Str(s: string)
    | Obj(fields: map<string, Value>)
    | Arr(items: seq<Value>)
    | Fn(id: nat)
    | RendererWrapper(renderer: Element)
    | CustomEditor(component: Option<EditorInstance>)
    | EditorEmitter(editorClass: ClassId)

  /** JavaScript truthiness: `undefined`, `null`, `false`, `0` and `""` are falsy. */
  predicate Truthy(v: Value) {
    match v
    case Undefined => false
    case Null => false
    case Bool(b) => b
    case Num(n) => n != 0
    case Str(s) => s != ""
    case _ => true
  }

  /** `obj[key]` on a props or settings object: `undefined` for a missing key. */
  function Lookup(obj: map<string, Value>, key: string): Value {
    if key in obj then obj[key] else Undefined
  }

  /** `v[key]` on an arbitrary value: only plain objects carry named fields here. */
  function Get(v: Value, key: string): Value {
    if v.Obj? then Lookup(v.fields, key) else Undefined
  }

  /** The own enumerable properties that `for…in` with `hasOwnProperty` visits. */
  function OwnProps(v: Value): map<string, Value> {
    if v.Obj? then v.fields else map[]
  }

  /** JavaScript `a || b`: the first operand when truthy, otherwise the second. */
  function Or(a: Value, b: Value): Value {
    if Truthy(a) then a else b
  }

  /**
   * `a[i] = v` on a JavaScript array: an index past the end grows the array
   * to `i + 1` elements, the positions skipped over reading as `undefined`.
   */
  function ArrayWrite(a: seq<Value>, i: nat, v: Value): (r: seq<Value>)
    ensures |r| == if i < |a| then |a| else i + 1
    ensures r[i] == v
    ensures forall j | 0 <= j < |r| && j != i :: r[j] == if j < |a| then a[j] else Undefined
  {
    if i < |a| then a[i := v] else a + seq(i - |a|, _ => Undefined) + [v]
  }
}
