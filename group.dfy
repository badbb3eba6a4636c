/** The state-changing side of the group binding: addObject, removeObject,
    removeObjectsFromDocument and newObject change what the group holds,
    hasObject and getObject only query it.

    The group's own operations (App::DocumentObjectGroup) are not part of
    this model: they are the functions of an `Engine` over an opaque
    membership state `S`, and the binding is proved to call the right one,
    or none. */
module GroupPy {
  import opened GroupChecks

  /** The operations of the underlying group that the binding calls. */
  datatype Engine<!S> = Engine(
    add: (S, DocObject) -> S,
    remove: (S, DocObject) -> S,
    removeAllFromDocument: S -> S,
    has: (S, DocObject, bool) -> bool,
    find: (S, string) -> Option<DocObject>,
    create: (S, string, Option<string>) -> (S, Option<DocObject>))

  /** A call handed to the Proxy override: the method name, the bound
      callable and the object it is given. What the override then does is
      scripting code outside the model. */
  datatype ProxyCall = ProxyCall(name: string, callable: BoundMethod, arg: DocObject)

  /** What the binding knows about its group and does not change. */
  datatype GroupConfig = GroupConfig(id: ObjectId, doc: DocumentId, wrapper: PyId,
                                     isPythonGroup: bool, proxy: ProxyProperty)

  /** What the binding's calls change: the membership held by the engine and
      the calls made to the override so far. */
  datatype GroupState<S> = GroupState(members: S, proxyCalls: seq<ProxyCall>)

  const AddName := "addObject"
  const RemoveName := "removeObject"

  predicate Overridden(c: GroupConfig, name: string) {
    Overrides(c.isPythonGroup, c.proxy, name, c.wrapper)
  }

  /** Hand an accepted call either to the override or to `builtin`. */
  function Forward<S>(c: GroupConfig, s: GroupState<S>, name: string, obj: DocObject, builtin: S -> S): GroupState<S> {
    match RouteCall(c.isPythonGroup, c.proxy, name, c.wrapper)
    case ViaProxy(callable) => GroupState(s.members, s.proxyCalls + [ProxyCall(name, callable, obj)])
    case Builtin => GroupState(builtin(s.members), s.proxyCalls)
  }

  /** addObject as a step on the group's state. */
  function AddStep<S>(c: GroupConfig, e: Engine<S>, s: GroupState<S>, r: ObjectRef,
                      isChildOf: (ObjectId, ObjectId) -> bool): (out: (Verdict, GroupState<S>))
    ensures out.0 == AddGuard(c.id, c.doc, r, isChildOf)
    ensures out.0.Reject? ==> out.1 == s
    ensures out.0.Accept? && Overridden(c, AddName) ==>
              out.1 == GroupState(s.members, s.proxyCalls + [ProxyCall(AddName, c.proxy.attributes[AddName], r.obj)])
    ensures out.0.Accept? && !Overridden(c, AddName) ==>
              out.1 == GroupState(e.add(s.members, r.obj), s.proxyCalls)
  {
    var v := AddGuard(c.id, c.doc, r, isChildOf);
    if v.Reject? then (v, s)
    else (v, Forward(c, s, AddName, r.obj, m => e.add(m, r.obj)))
  }

  /** removeObject as a step on the group's state. */
  function RemoveStep<S>(c: GroupConfig, e: Engine<S>, s: GroupState<S>, r: ObjectRef): (out: (Verdict, GroupState<S>))
    ensures out.0 == ObjectGuard(c.doc, r)
    ensures out.0.Reject? ==> out.1 == s
    ensures out.0.Accept? && Overridden(c, RemoveName) ==>
              out.1 == GroupState(s.members, s.proxyCalls + [ProxyCall(RemoveName, c.proxy.attributes[RemoveName], r.obj)])
    ensures out.0.Accept? && !Overridden(c, RemoveName) ==>
              out.1 == GroupState(e.remove(s.members, r.obj), s.proxyCalls)
  {
    var v := ObjectGuard(c.doc, r);
    if v.Reject? then (v, s)
    else (v, Forward(c, s, RemoveName, r.obj, m => e.remove(m, r.obj)))
  }

  /** A Proxy `addObject` bound to the group's own wrapper is never called:
      an accepted call runs the built-in add, whatever the Proxy's
      `removeObject` is. */
  lemma AddSelfBoundFallsBack<S>(c: GroupConfig, e: Engine<S>, s: GroupState<S>, r: ObjectRef,
                                 isChildOf: (ObjectId, ObjectId) -> bool)
    requires c.proxy.PythonObject? && AddName in c.proxy.attributes
    requires c.proxy.attributes[AddName].owner == c.wrapper
    requires AddGuard(c.id, c.doc, r, isChildOf) == Accept
    ensures AddStep(c, e, s, r, isChildOf).1 == GroupState(e.add(s.members, r.obj), s.proxyCalls)
  {
  }

  /** The same for `removeObject`, whatever the Proxy's `addObject` is. */
  lemma RemoveSelfBoundFallsBack<S>(c: GroupConfig, e: Engine<S>, s: GroupState<S>, r: ObjectRef)
    requires c.proxy.PythonObject? && RemoveName in c.proxy.attributes
    requires c.proxy.attributes[RemoveName].owner == c.wrapper
    requires ObjectGuard(c.doc, r) == Accept
    ensures RemoveStep(c, e, s, r).1 == GroupState(e.remove(s.members, r.obj), s.proxyCalls)
  {
  }

  /** A group object wrapped by the binding. */
  class Group<S> {
    const id: ObjectId
    const doc: DocumentId
    const wrapper: PyId
    const isPythonGroup: bool
    const engine: Engine<S>
    var proxy: ProxyProperty
    var members: S
    var proxyCalls: seq<ProxyCall>

    function Config(): GroupConfig
      reads this
    {
      GroupConfig(id, doc, wrapper, isPythonGroup, proxy)
    }

    function State(): GroupState<S>
      reads this
    {
      GroupState(members, proxyCalls)
    }

    constructor (id: ObjectId, doc: DocumentId, wrapper: PyId, isPythonGroup: bool,
                 engine: Engine<S>, proxy: ProxyProperty, members: S)
      ensures Config() == GroupConfig(id, doc, wrapper, isPythonGroup, proxy)
      ensures this.engine == engine && State() == GroupState(members, [])
    {
      this.id := id;
      this.doc := doc;
      this.wrapper := wrapper;
      this.isPythonGroup := isPythonGroup;
      this.engine := engine;
      this.proxy := proxy;
      this.members := members;
      this.proxyCalls := [];
    }

    /** On a rejection, `raised` is the exception the caller receives. */
    method AddObject(r: ObjectRef, isChildOf: (ObjectId, ObjectId) -> bool) returns (v: Verdict, raised: Option<PyException>)
      modifies this`members, this`proxyCalls
      ensures (v, State()) == AddStep(Config(), engine, old(State()), r, isChildOf)
      ensures raised == if v.Reject? then Some(Raise(AddOp, v.error)) else None
    {
      v := AddGuard(id, doc, r, isChildOf);
      if v.Reject? {
        raised := Some(Raise(AddOp, v.error));
        return;
      }
      raised := None;
      var route := RouteCall(isPythonGroup, proxy, AddName, wrapper);
      match route
      case ViaProxy(callable) =>
        proxyCalls := proxyCalls + [ProxyCall(AddName, callable, r.obj)];
      case Builtin =>
        members := engine.add(members, r.obj);
    }

    method RemoveObject(r: ObjectRef) returns (v: Verdict, raised: Option<PyException>)
      modifies this`members, this`proxyCalls
      ensures (v, State()) == RemoveStep(Config(), engine, old(State()), r)
      ensures raised == if v.Reject? then Some(Raise(RemoveOp, v.error)) else None
    {
      v := ObjectGuard(doc, r);
      if v.Reject? {
        raised := Some(Raise(RemoveOp, v.error));
        return;
      }
      raised := None;
      var route := RouteCall(isPythonGroup, proxy, RemoveName, wrapper);
      match route
      case ViaProxy(callable) =>
        proxyCalls := proxyCalls + [ProxyCall(RemoveName, callable, r.obj)];
      case Builtin =>
        members := engine.remove(members, r.obj);
    }

    /** No checks: the call always goes to the built-in operation. */
    method RemoveObjectsFromDocument()
      modifies this`members
      ensures members == engine.removeAllFromDocument(old(members))
    {
      members := engine.removeAllFromDocument(members);
    }

    /** Creation goes straight to the engine; what it did to the membership
        stays whether or not an object came back. */
    method NewObject(typeName: string, name: Option<string>) returns (res: Result<DocObject>)
      modifies this`members
      ensures members == engine.create(old(members), typeName, name).0
      ensures res == CreationResult(typeName, engine.create(old(members), typeName, name).1)
    {
      var created := engine.create(members, typeName, name);
      members := created.0;
      res := CreationResult(typeName, created.1);
    }

    /** A query: it changes nothing, and on success its answer is the
        engine's, asked with the forwarded recursive flag. */
    method HasObject(r: ObjectRef, recursive: Option<Truth>) returns (res: Result<bool>, raised: Option<PyException>)
      ensures HasArguments(doc, r, recursive).Err? ==> res == Err(HasArguments(doc, r, recursive).error)
      ensures HasArguments(doc, r, recursive).Ok? ==>
                res == Ok(engine.has(members, r.obj, HasArguments(doc, r, recursive).value))
      ensures raised == if res.Err? then Some(Raise(CheckOp, res.error)) else None
    {
      var flag := HasArguments(doc, r, recursive);
      match flag
      case Err(e) =>
        res := Err(e);
        raised := Some(Raise(CheckOp, e));
      case Ok(recursiveFlag) =>
        res := Ok(engine.has(members, r.obj, recursiveFlag));
        raised := None;
    }

    /** A lookup by name; an unknown name gives None, not an error. */
    method GetObject(name: string) returns (found: Option<DocObject>)
      ensures found == engine.find(members, name)
    {
      found := engine.find(members, name);
    }
  }
}
