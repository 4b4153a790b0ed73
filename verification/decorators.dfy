/**
 * The decorator metadata registry of the scripts runtime. Each decorator,
 * applied to a member of a class, appends one record to one of five
 * per-class tables (`_InspectorValues`, `_ChildrenValues`, `_SceneValues`,
 * `_PointerValues`, `_KeyboardValues`) kept on the class constructor.
 *
 * Classes are opaque identifiers and each table is a map from class to its
 * records in push order; a class with no entry is a class whose table is
 * still `undefined`.
 */
module Decorators {
  import opened Common

  type ClassId = nat

  /** A decorated member's key: a string, or a symbol with an optional description. */
  datatype PropertyKey = StringKey(name: string) | SymbolKey(description: Option<string>)

  /** `propertyKey.toString()`: a string is itself, a symbol prints as `Symbol(description)`. */
  function KeyText(key: PropertyKey): string {
    match key
    case StringKey(name) => name
    case SymbolKey(description) => "Symbol(" + description.GetOr("") + ")"
  }

  /** `VisiblityPropertyType`: the kinds of field the inspector can show. */
  datatype PropertyType = NumberField | StringField | BooleanField | Vector2Field | Vector3Field | Vector4Field

  /** A record of `_InspectorValues`. */
  datatype InspectorField = InspectorField(kind: PropertyType, name: string, propertyKey: string)

  /** A record of `_ChildrenValues` or `_SceneValues`. */
  datatype NodeLink = NodeLink(nodeName: string, propertyKey: string)

  /** A record of `_PointerValues`; the event type is the engine's numeric enum value. */
  datatype PointerHandler = PointerHandler(eventType: int, propertyKey: string)

  /** A record of `_KeyboardValues`; the event type is optional. */
  datatype KeyboardHandler = KeyboardHandler(eventType: Option<int>, keys: seq<int>, propertyKey: string)

  /** The `key` argument of `onKeyboardEvent`: one key code or an array of them. */
  datatype KeySpec = SingleKey(code: int) | KeyArray(codes: seq<int>)

  /** The five tables, one map per table from class to its records. */
  datatype Registry = Registry(
    inspector: map<ClassId, seq<InspectorField>>,
    children: map<ClassId, seq<NodeLink>>,
    scene: map<ClassId, seq<NodeLink>>,
    pointer: map<ClassId, seq<PointerHandler>>,
    keyboard: map<ClassId, seq<KeyboardHandler>>)

  const EmptyRegistry: Registry := Registry(map[], map[], map[], map[], map[])

  /**
   * What a decorator sees of its target: the class (`target.constructor`),
   * its name, and which keys hold a function (`typeof target[key] === "function"`).
   */
  datatype Target = Target(cls: ClassId, className: string, functionMembers: set<PropertyKey>)

  /** The error thrown when an event decorator is put on a member that is not a function. */
  datatype DecoratorError = NotAFunction(propertyKey: string, className: string)

  /** The registry after a decorator ran, and the error it threw, if any. */
  datatype Applied = Applied(registry: Registry, thrown: Option<DecoratorError>)

  /** `ctor._X ?? []`: a class's records, empty when its table does not exist yet. */
  function Records<T>(table: map<ClassId, seq<T>>, cls: ClassId): seq<T> {
    if cls in table then table[cls] else []
  }

  /**
   * `ctor._X = ctor._X ?? []; ctor._X.push(record)`: the class's table now
   * exists and ends in `record` after its earlier records, in order; every
   * other class's table is untouched.
   */
  function Push<T>(table: map<ClassId, seq<T>>, cls: ClassId, record: T): (r: map<ClassId, seq<T>>)
    ensures r.Keys == table.Keys + {cls}
    ensures |r[cls]| == |Records(table, cls)| + 1
    ensures r[cls][..|Records(table, cls)|] == Records(table, cls)
    ensures r[cls][|Records(table, cls)|] == record
    ensures forall c :: c in table && c != cls ==> r[c] == table[c]
  {
    table[cls := Records(table, cls) + [record]]
  }

  /** Names one of the five tables. */
  datatype Table = InspectorTable | ChildrenTable | SceneTable | PointerTable | KeyboardTable

  /** Only table `t` may differ between `a` and `b`. */
  predicate UnchangedBut(a: Registry, b: Registry, t: Table) {
    && (t != InspectorTable ==> a.inspector == b.inspector)
    && (t != ChildrenTable ==> a.children == b.children)
    && (t != SceneTable ==> a.scene == b.scene)
    && (t != PointerTable ==> a.pointer == b.pointer)
    && (t != KeyboardTable ==> a.keyboard == b.keyboard)
  }

  /**
   * `visibleInInspector(kind, name)` applied to `key` of `target`: one field
   * pushed on the class's inspector table, named `name`, or the key's text
   * when no name is given.
   */
  function VisibleInInspector(reg: Registry, kind: PropertyType, name: Option<string>, target: Target, key: PropertyKey): (r: Registry)
    ensures UnchangedBut(reg, r, InspectorTable)
    ensures Records(r.inspector, target.cls) == Records(reg.inspector, target.cls) + [InspectorField(kind, name.GetOr(KeyText(key)), KeyText(key))]
    ensures forall c :: c != target.cls ==> Records(r.inspector, c) == Records(reg.inspector, c)
  {
    var field := InspectorField(kind, name.GetOr(KeyText(key)), KeyText(key));
    reg.(inspector := Push(reg.inspector, target.cls, field))
  }

  /** `fromChildren(nodeName)`: one link pushed on the children table, named `nodeName` or the key's text. */
  function FromChildren(reg: Registry, nodeName: Option<string>, target: Target, key: PropertyKey): (r: Registry)
    ensures UnchangedBut(reg, r, ChildrenTable)
    ensures Records(r.children, target.cls) == Records(reg.children, target.cls) + [NodeLink(nodeName.GetOr(KeyText(key)), KeyText(key))]
    ensures forall c :: c != target.cls ==> Records(r.children, c) == Records(reg.children, c)
  {
    reg.(children := Push(reg.children, target.cls, NodeLink(nodeName.GetOr(KeyText(key)), KeyText(key))))
  }

  /** `fromScene(nodeName)`: one link pushed on the scene table, named `nodeName` or the key's text. */
  function FromScene(reg: Registry, nodeName: Option<string>, target: Target, key: PropertyKey): (r: Registry)
    ensures UnchangedBut(reg, r, SceneTable)
    ensures Records(r.scene, target.cls) == Records(reg.scene, target.cls) + [NodeLink(nodeName.GetOr(KeyText(key)), KeyText(key))]
    ensures forall c :: c != target.cls ==> Records(r.scene, c) == Records(reg.scene, c)
  {
    reg.(scene := Push(reg.scene, target.cls, NodeLink(nodeName.GetOr(KeyText(key)), KeyText(key))))
  }

  /**
   * `onPointerEvent(eventType)`: throws, leaving every table as it was, when
   * the member is not a function; otherwise pushes one handler on the pointer table.
   */
  function OnPointerEvent(reg: Registry, eventType: int, target: Target, key: PropertyKey): (r: Applied)
    ensures r.thrown.Some? <==> key !in target.functionMembers
    ensures r.thrown.Some? ==> r.registry == reg && r.thrown.value == NotAFunction(KeyText(key), target.className)
    ensures r.thrown.None? ==>
              && UnchangedBut(reg, r.registry, PointerTable)
              && Records(r.registry.pointer, target.cls) == Records(reg.pointer, target.cls) + [PointerHandler(eventType, KeyText(key))]
              && forall c :: c != target.cls ==> Records(r.registry.pointer, c) == Records(reg.pointer, c)
  {
    if key !in target.functionMembers then
      Applied(reg, Some(NotAFunction(KeyText(key), target.className)))
    else
      Applied(reg.(pointer := Push(reg.pointer, target.cls, PointerHandler(eventType, KeyText(key)))), None)
  }

  /** `Array.isArray(key) ? key : [key]`: a single key becomes a one-element list, an array is kept as given. */
  function KeyCodes(spec: KeySpec): seq<int> {
    match spec
    case SingleKey(code) => [code]
    case KeyArray(codes) => codes
  }

  /**
   * `onKeyboardEvent(key, eventType)`: throws, leaving every table as it
   * was, when the member is not a function; otherwise pushes one handler on
   * the keyboard table with the normalised key list and the event type as passed.
   */
  function OnKeyboardEvent(reg: Registry, spec: KeySpec, eventType: Option<int>, target: Target, key: PropertyKey): (r: Applied)
    ensures r.thrown.Some? <==> key !in target.functionMembers
    ensures r.thrown.Some? ==> r.registry == reg && r.thrown.value == NotAFunction(KeyText(key), target.className)
    ensures r.thrown.None? ==>
              && UnchangedBut(reg, r.registry, KeyboardTable)
              && Records(r.registry.keyboard, target.cls) == Records(reg.keyboard, target.cls) + [KeyboardHandler(eventType, KeyCodes(spec), KeyText(key))]
              && forall c :: c != target.cls ==> Records(r.registry.keyboard, c) == Records(reg.keyboard, c)
  {
    if key !in target.functionMembers then
      Applied(reg, Some(NotAFunction(KeyText(key), target.className)))
    else
      Applied(reg.(keyboard := Push(reg.keyboard, target.cls, KeyboardHandler(eventType, KeyCodes(spec), KeyText(key)))), None)
  }

  /**
   * The point of the normalisation: decorating with a single key and with the
   * one-element array holding it store the same handler, and fail the same way.
   */
  lemma SingleKeyIsSingletonArray(reg: Registry, code: int, eventType: Option<int>, target: Target, key: PropertyKey)
    ensures OnKeyboardEvent(reg, SingleKey(code), eventType, target, key)
         == OnKeyboardEvent(reg, KeyArray([code]), eventType, target, key)
  {
  }

  // ---------------------------------------------------------------------
  // A class definition: its decorators applied one after another.
  // ---------------------------------------------------------------------

  /** A decorator factory call, with its arguments. */
  datatype Decorator =
    | Inspector(kind: PropertyType, name: Option<string>)
    | Children(nodeName: Option<string>)
    | SceneNode(nodeName: Option<string>)
    | Pointer(eventType: int)
    | Keyboard(keySpec: KeySpec, keyEventType: Option<int>)

  /** A decorator applied to one member of one class. */
  datatype Decoration = Decoration(decorator: Decorator, target: Target, key: PropertyKey)

  /**
   * Runs one decorator. It throws exactly when it rejects its member, and
   * then changes nothing; otherwise each class's tables gain exactly the
   * record the decorator declares for that class.
   */
  function Apply(reg: Registry, d: Decoration): (r: Applied)
    ensures r.thrown.Some? <==> Rejects(d)
    ensures r.thrown.Some? ==> r.registry == reg
    ensures r.thrown.None? ==> forall cls :: Records(r.registry.inspector, cls) == Records(reg.inspector, cls) + OwnInspectorField(d, cls)
    ensures r.thrown.None? ==> forall cls :: Records(r.registry.children, cls) == Records(reg.children, cls) + OwnChildLink(d, cls)
    ensures r.thrown.None? ==> forall cls :: Records(r.registry.scene, cls) == Records(reg.scene, cls) + OwnSceneLink(d, cls)
    ensures r.thrown.None? ==> forall cls :: Records(r.registry.pointer, cls) == Records(reg.pointer, cls) + OwnPointerHandler(d, cls)
    ensures r.thrown.None? ==> forall cls :: Records(r.registry.keyboard, cls) == Records(reg.keyboard, cls) + OwnKeyboardHandler(d, cls)
  {
    match d.decorator
    case Inspector(kind, name) => Applied(VisibleInInspector(reg, kind, name, d.target, d.key), None)
    case Children(nodeName) => Applied(FromChildren(reg, nodeName, d.target, d.key), None)
    case SceneNode(nodeName) => Applied(FromScene(reg, nodeName, d.target, d.key), None)
    case Pointer(eventType) => OnPointerEvent(reg, eventType, d.target, d.key)
    case Keyboard(spec, eventType) => OnKeyboardEvent(reg, spec, eventType, d.target, d.key)
  }

  /**
   * Applies the decorations in `ds` one after another; the first one that
   * throws ends the evaluation. `ds` is the order in which the decorators
   * run, not the order they are written in: TypeScript's legacy decorators
   * run member by member, and several decorators on one member run bottom-up.
   */
  function ApplyAll(reg: Registry, ds: seq<Decoration>): Applied
    decreases |ds|
  {
    if |ds| == 0 then Applied(reg, None)
    else
      var step := Apply(reg, ds[0]);
      if step.thrown.Some? then step else ApplyAll(step.registry, ds[1..])
  }

  /** Only the event decorators can throw, and only on a member that is not a function. */
  predicate Rejects(d: Decoration) {
    (d.decorator.Pointer? || d.decorator.Keyboard?) && d.key !in d.target.functionMembers
  }

  /** The inspector field decoration `d` declares for class `cls`, if any. */
  function OwnInspectorField(d: Decoration, cls: ClassId): seq<InspectorField> {
    if d.decorator.Inspector? && d.target.cls == cls
    then [InspectorField(d.decorator.kind, d.decorator.name.GetOr(KeyText(d.key)), KeyText(d.key))]
    else []
  }

  /** The children link decoration `d` declares for class `cls`, if any. */
  function OwnChildLink(d: Decoration, cls: ClassId): seq<NodeLink> {
    if d.decorator.Children? && d.target.cls == cls
    then [NodeLink(d.decorator.nodeName.GetOr(KeyText(d.key)), KeyText(d.key))]
    else []
  }

  /** The scene link decoration `d` declares for class `cls`, if any. */
  function OwnSceneLink(d: Decoration, cls: ClassId): seq<NodeLink> {
    if d.decorator.SceneNode? && d.target.cls == cls
    then [NodeLink(d.decorator.nodeName.GetOr(KeyText(d.key)), KeyText(d.key))]
    else []
  }

  /** The pointer handler decoration `d` declares for class `cls`, if any. */
  function OwnPointerHandler(d: Decoration, cls: ClassId): seq<PointerHandler> {
    if d.decorator.Pointer? && d.target.cls == cls
    then [PointerHandler(d.decorator.eventType, KeyText(d.key))]
    else []
  }

  /** The keyboard handler decoration `d` declares for class `cls`, if any. */
  function OwnKeyboardHandler(d: Decoration, cls: ClassId): seq<KeyboardHandler> {
    if d.decorator.Keyboard? && d.target.cls == cls
    then [KeyboardHandler(d.decorator.keyEventType, KeyCodes(d.decorator.keySpec), KeyText(d.key))]
    else []
  }

  /** The inspector fields that the decorations in `ds` declare for class `cls`, in order. */
  function InspectorFieldsOf(ds: seq<Decoration>, cls: ClassId): seq<InspectorField>
    decreases |ds|
  {
    if |ds| == 0 then [] else OwnInspectorField(ds[0], cls) + InspectorFieldsOf(ds[1..], cls)
  }

  /** The children links that the decorations in `ds` declare for class `cls`, in order. */
  function ChildLinksOf(ds: seq<Decoration>, cls: ClassId): seq<NodeLink>
    decreases |ds|
  {
    if |ds| == 0 then [] else OwnChildLink(ds[0], cls) + ChildLinksOf(ds[1..], cls)
  }

  /** The scene links that the decorations in `ds` declare for class `cls`, in order. */
  function SceneLinksOf(ds: seq<Decoration>, cls: ClassId): seq<NodeLink>
    decreases |ds|
  {
    if |ds| == 0 then [] else OwnSceneLink(ds[0], cls) + SceneLinksOf(ds[1..], cls)
  }

  /** The pointer handlers that the decorations in `ds` declare for class `cls`, in order. */
  function PointerHandlersOf(ds: seq<Decoration>, cls: ClassId): seq<PointerHandler>
    decreases |ds|
  {
    if |ds| == 0 then [] else OwnPointerHandler(ds[0], cls) + PointerHandlersOf(ds[1..], cls)
  }

  /** The keyboard handlers that the decorations in `ds` declare for class `cls`, in order. */
  function KeyboardHandlersOf(ds: seq<Decoration>, cls: ClassId): seq<KeyboardHandler>
    decreases |ds|
  {
    if |ds| == 0 then [] else OwnKeyboardHandler(ds[0], cls) + KeyboardHandlersOf(ds[1..], cls)
  }

  /** A class definition throws exactly when one of its decorations rejects its member. */
  lemma {:induction false} ApplyAllThrowsIffRejected(reg: Registry, ds: seq<Decoration>)
    ensures ApplyAll(reg, ds).thrown.Some? <==> exists i :: 0 <= i < |ds| && Rejects(ds[i])
    decreases |ds|
  {
    if |ds| > 0 {
      var step := Apply(reg, ds[0]);
      if step.thrown.None? {
        ApplyAllThrowsIffRejected(step.registry, ds[1..]);
        if exists i :: 0 <= i < |ds| && Rejects(ds[i]) {
          var i :| 0 <= i < |ds| && Rejects(ds[i]);
          assert i > 0 && ds[1..][i - 1] == ds[i];
        }
        if exists j :: 0 <= j < |ds[1..]| && Rejects(ds[1..][j]) {
          var j :| 0 <= j < |ds[1..]| && Rejects(ds[1..][j]);
          assert ds[j + 1] == ds[1..][j];
        }
      }
    }
  }

  /** Records appended in two steps are the earlier records followed by both additions, in order. */
  lemma AppendAfter<T>(before: seq<T>, mid: seq<T>, own: seq<T>, after: seq<T>, rest: seq<T>)
    requires mid == before + own
    requires after == mid + rest
    ensures after == before + (own + rest)
  {
  }

  /** Unfolds one step of ApplyAll when its first decoration does not throw. */
  lemma ApplyAllFirstStep(reg: Registry, ds: seq<Decoration>)
    requires |ds| > 0 && ApplyAll(reg, ds).thrown.None?
    ensures Apply(reg, ds[0]).thrown.None?
    ensures ApplyAll(reg, ds) == ApplyAll(Apply(reg, ds[0]).registry, ds[1..])
  {
  }

  /**
   * When a class definition evaluates without throwing, each class's
   * inspector table has gained exactly the fields its decorations declared,
   * after its earlier ones and in order.
   */
  lemma {:induction false} ApplyAllInspectorInOrder(reg: Registry, ds: seq<Decoration>, cls: ClassId)
    requires ApplyAll(reg, ds).thrown.None?
    ensures Records(ApplyAll(reg, ds).registry.inspector, cls) == Records(reg.inspector, cls) + InspectorFieldsOf(ds, cls)
    decreases |ds|
  {
    if |ds| > 0 {
      ApplyAllFirstStep(reg, ds);
      var next := Apply(reg, ds[0]).registry;
      ApplyAllInspectorInOrder(next, ds[1..], cls);
      AppendAfter(Records(reg.inspector, cls), Records(next.inspector, cls), OwnInspectorField(ds[0], cls),
                  Records(ApplyAll(next, ds[1..]).registry.inspector, cls), InspectorFieldsOf(ds[1..], cls));
    }
  }

  /** The same for the children table. */
  lemma {:induction false} ApplyAllChildrenInOrder(reg: Registry, ds: seq<Decoration>, cls: ClassId)
    requires ApplyAll(reg, ds).thrown.None?
    ensures Records(ApplyAll(reg, ds).registry.children, cls) == Records(reg.children, cls) + ChildLinksOf(ds, cls)
    decreases |ds|
  {
    if |ds| > 0 {
      ApplyAllFirstStep(reg, ds);
      var next := Apply(reg, ds[0]).registry;
      ApplyAllChildrenInOrder(next, ds[1..], cls);
      AppendAfter(Records(reg.children, cls), Records(next.children, cls), OwnChildLink(ds[0], cls),
                  Records(ApplyAll(next, ds[1..]).registry.children, cls), ChildLinksOf(ds[1..], cls));
    }
  }

  /** The same for the scene table. */
  lemma {:induction false} ApplyAllSceneInOrder(reg: Registry, ds: seq<Decoration>, cls: ClassId)
    requires ApplyAll(reg, ds).thrown.None?
    ensures Records(ApplyAll(reg, ds).registry.scene, cls) == Records(reg.scene, cls) + SceneLinksOf(ds, cls)
    decreases |ds|
  {
    if |ds| > 0 {
      ApplyAllFirstStep(reg, ds);
      var next := Apply(reg, ds[0]).registry;
      ApplyAllSceneInOrder(next, ds[1..], cls);
      AppendAfter(Records(reg.scene, cls), Records(next.scene, cls), OwnSceneLink(ds[0], cls),
                  Records(ApplyAll(next, ds[1..]).registry.scene, cls), SceneLinksOf(ds[1..], cls));
    }
  }

  /** The same for the pointer table. */
  lemma {:induction false} ApplyAllPointerInOrder(reg: Registry, ds: seq<Decoration>, cls: ClassId)
    requires ApplyAll(reg, ds).thrown.None?
    ensures Records(ApplyAll(reg, ds).registry.pointer, cls) == Records(reg.pointer, cls) + PointerHandlersOf(ds, cls)
    decreases |ds|
  {
    if |ds| > 0 {
      ApplyAllFirstStep(reg, ds);
      var next := Apply(reg, ds[0]).registry;
      ApplyAllPointerInOrder(next, ds[1..], cls);
      AppendAfter(Records(reg.pointer, cls), Records(next.pointer, cls), OwnPointerHandler(ds[0], cls),
                  Records(ApplyAll(next, ds[1..]).registry.pointer, cls), PointerHandlersOf(ds[1..], cls));
    }
  }

  /** The same for the keyboard table, with each handler's keys normalised. */
  lemma {:induction false} ApplyAllKeyboardInOrder(reg: Registry, ds: seq<Decoration>, cls: ClassId)
    requires ApplyAll(reg, ds).thrown.None?
    ensures Records(ApplyAll(reg, ds).registry.keyboard, cls) == Records(reg.keyboard, cls) + KeyboardHandlersOf(ds, cls)
    decreases |ds|
  {
    if |ds| > 0 {
      ApplyAllFirstStep(reg, ds);
      var next := Apply(reg, ds[0]).registry;
      ApplyAllKeyboardInOrder(next, ds[1..], cls);
      AppendAfter(Records(reg.keyboard, cls), Records(next.keyboard, cls), OwnKeyboardHandler(ds[0], cls),
                  Records(ApplyAll(next, ds[1..]).registry.keyboard, cls), KeyboardHandlersOf(ds[1..], cls));
    }
  }
}
