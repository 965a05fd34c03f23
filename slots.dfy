/**
 * Slot lookup among a component's children: the renderer and editor
 * components a user declares by giving a child the `hot-renderer` or
 * `hot-editor` prop, and the class the editor cache is keyed by.
 */
module Slots {
  import opened JsValues

  const HotRenderer := "hot-renderer"
  const HotEditor := "hot-editor"

  /** The child's props define the slot key: `child.props[slot] !== undefined`. */
  predicate FillsSlot(child: Element, slot: string) {
    Lookup(child.props, slot) != Undefined
  }

  /** `i` is the position of the earliest child that fills the slot. */
  ghost predicate IsFirstInSlot(children: seq<Element>, slot: string, i: int) {
    && 0 <= i < |children|
    && FillsSlot(children[i], slot)
    && forall j | 0 <= j < i :: !FillsSlot(children[j], slot)
  }

  /** `Array.prototype.find` over the children with the `!== undefined` test. */
  function Find(children: seq<Element>, slot: string): (r: Option<Element>)
    ensures r.None? <==> forall i | 0 <= i < |children| :: !FillsSlot(children[i], slot)
    ensures r.Some? ==> exists i :: IsFirstInSlot(children, slot, i) && children[i] == r.value
  {
    if children == [] then None
    else if FillsSlot(children[0], slot) then
      assert IsFirstInSlot(children, slot, 0);
      Some(children[0])
    else
      var r := Find(children[1..], slot);
      assert forall i | 1 <= i < |children| :: children[i] == children[1..][i - 1];
      assert r.Some? ==> exists i :: IsFirstInSlot(children, slot, i) && children[i] == r.value by {
        if r.Some? {
          var k :| IsFirstInSlot(children[1..], slot, k) && children[1..][k] == r.value;
          assert IsFirstInSlot(children, slot, k + 1);
        }
      }
      r
  }

  /**
   * `getChildElementByType`: a lone child whose slot prop is truthy is
   * returned directly; otherwise, including a lone child whose slot prop is
   * defined but falsy, the children are searched. Both paths give the
   * earliest child that defines the slot, and `null` when none does.
   */
  function ChildElementByType(children: seq<Element>, slot: string): (r: Option<Element>)
    ensures r == Find(children, slot)
    ensures r.None? <==> forall i | 0 <= i < |children| :: !FillsSlot(children[i], slot)
    ensures r.Some? ==> exists i :: IsFirstInSlot(children, slot, i) && children[i] == r.value
  {
    if |children| != 0 then
      if |children| == 1 && Truthy(Lookup(children[0].props, slot)) then Some(children[0])
      else Find(children, slot)
    else None
  }

  /**
   * `getOriginalEditorClass`: `null` for no element, otherwise the element
   * type's `WrappedComponent` when it has one, else the type itself.
   */
  function OriginalEditorClass(editorElement: Option<Element>): (r: Option<ClassId>)
    ensures r.None? <==> editorElement.None?
    ensures editorElement.Some? && editorElement.value.elementType.wrappedComponent.Some? ==>
              r == editorElement.value.elementType.wrappedComponent
    ensures editorElement.Some? && editorElement.value.elementType.wrappedComponent.None? ==>
              r == Some(editorElement.value.elementType.id)
  {
    match editorElement
    case None => None
    case Some(e) =>
      match e.elementType.wrappedComponent
      case Some(w) => Some(w)
      case None => Some(e.elementType.id)
  }

  /**
   * `getExtendedEditorElement`: the `hot-editor` child cloned with two extra
   * props, `isEditor: true` and the `emitEditorInstance` callback through
   * which the editor component registers itself in the editor cache
   * (modelled by the table's `EmitEditorInstance`); `null` without such a
   * child. The clone keeps the child's type, so its original editor class
   * is the child's.
   */
  function ExtendedEditorElement(children: seq<Element>): (r: Option<Element>)
    ensures r.None? <==> ChildElementByType(children, HotEditor).None?
    ensures r.Some? ==>
              var child := ChildElementByType(children, HotEditor).value;
              && r.value.elementType == child.elementType
              && r.value.props.Keys == child.props.Keys + {"emitEditorInstance", "isEditor"}
              && Lookup(r.value.props, "isEditor") == Bool(true)
              && Lookup(r.value.props, "emitEditorInstance") == EditorEmitter(OriginalEditorClass(Some(child)).value)
              && (forall k | k in child.props && k != "emitEditorInstance" && k != "isEditor" ::
                    r.value.props[k] == child.props[k])
              && OriginalEditorClass(r) == OriginalEditorClass(Some(child))
  {
    match ChildElementByType(children, HotEditor)
    case None => None
    case Some(e) =>
      var emitter := EditorEmitter(OriginalEditorClass(Some(e)).value);
      Some(Element(e.elementType, e.props["emitEditorInstance" := emitter]["isEditor" := Bool(true)]))
  }
}
