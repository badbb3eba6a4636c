/** The argument checks and the proxy routing of the scripting binding of a
    document-object group (App::DocumentObjectGroupPy).

    Every call that changes or queries a group's membership first runs a
    fixed chain of checks on the object it is given; the first check that
    fails decides the error and nothing else happens. A call that passes is
    either handed to a user "Proxy" override or to the built-in operation. */
module GroupChecks {

  datatype Option<+T> = None | Some(value: T)

  type ObjectId = nat
  type DocumentId = nat
  /** Identity of an object of the scripting layer (compared with `!=`). */
  type PyId = nat

  /** A document object as the binding sees it: its identity, its name in the
      document (None while it is not attached to a document), the document
      that owns it, and whether its type derives from DocumentObjectGroup. */
  datatype DocObject = DocObject(id: ObjectId, name: Option<string>, doc: DocumentId, isGroup: bool)

  /** The scripting wrapper passed as argument; it may have lost its object. */
  datatype ObjectRef = Dangling | Live(obj: DocObject)

  datatype GroupError =
    | InvalidObject
    | OtherDocument
    | GroupToItself
    | GroupToChild
    | RecursiveNotBoolean
    | CannotCreate(typeName: string)

  datatype Result<+T> = Ok(value: T) | Err(error: GroupError)

  /** Outcome of a check chain. */
  datatype Verdict = Accept | Reject(error: GroupError)

  /** The binding method an error is reported from; the messages differ. */
  datatype Operation = CreateOp | AddOp | RemoveOp | CheckOp

  datatype ExceptionType = FreeCADError | ValueError

  /** The exception class raised for `e`: only the unreadable recursive
      flag is a ValueError, every other error is a FreeCAD error. */
  function ExceptionOf(e: GroupError): (t: ExceptionType)
    ensures t == ValueError <==> e == RecursiveNotBoolean
  {
    if e == RecursiveNotBoolean then ValueError else FreeCADError
  }

  /** An exception as the scripting caller receives it. */
  datatype PyException = PyException(kind: ExceptionType, text: string)

  function Raise(op: Operation, e: GroupError): PyException {
    PyException(ExceptionOf(e), Message(op, e))
  }

  /** The errors each operation can report. */
  predicate RaisableBy(op: Operation, e: GroupError) {
    match op
    case CreateOp => e.CannotCreate?
    case AddOp => e == InvalidObject || e == OtherDocument || e == GroupToItself || e == GroupToChild
    case RemoveOp => e == InvalidObject || e == OtherDocument
    case CheckOp => e == InvalidObject || e == OtherDocument || e == RecursiveNotBoolean
  }

  /** The text of the exception raised for `e` by operation `op`; the text
      of an object check names the operation that refused the object. */
  function Message(op: Operation, e: GroupError): (text: string)
    ensures op == AddOp && RaisableBy(AddOp, e) ==> |text| >= 10 && text[..10] == "Cannot add"
    ensures op == RemoveOp && RaisableBy(RemoveOp, e) ==> |text| >= 13 && text[..13] == "Cannot remove"
    ensures op == CheckOp && (e == InvalidObject || e == OtherDocument) ==> |text| >= 12 && text[..12] == "Cannot check"
    ensures e.CannotCreate? ==> |text| == |e.typeName| + 31 && text[30..30 + |e.typeName|] == e.typeName
  {
    match e
    case InvalidObject =>
      (match op
       case RemoveOp => "Cannot remove" + " an invalid object"
       case CheckOp => "Cannot check" + " an invalid object"
       case _ => "Cannot add" + " an invalid object")
    case OtherDocument =>
      (match op
       case RemoveOp => "Cannot remove" + " an object from another document from this group"
       case CheckOp => "Cannot check" + " an object from another document with this group"
       case _ => "Cannot add" + " an object from another document to this group")
    case GroupToItself => "Cannot add" + " a group object to itself"
    case GroupToChild => "Cannot add" + " a group object to a child group"
    case RecursiveNotBoolean => "The recursive parameter should be of boolean type"
    case CannotCreate(t) => "Cannot create object of type '" + t + "'"
  }

  /** Within one operation, the exception raised tells which error occurred. */
  lemma RaiseIdentifiesError(op: Operation, e1: GroupError, e2: GroupError)
    requires RaisableBy(op, e1) && RaisableBy(op, e2)
    requires Raise(op, e1) == Raise(op, e2)
    ensures e1 == e2
  {
  }

  /** The wrapper still holds an object and that object has a name in its document. */
  predicate Attached(r: ObjectRef) {
    r.Live? && r.obj.name.Some?
  }

  // ---------------------------------------------------------------------
  // The check chains, as the binding writes them

  /** The two checks shared by removeObject and hasObject. */
  function ObjectGuard(doc: DocumentId, r: ObjectRef): (v: Verdict)
    ensures v == Accept <==> Attached(r) && r.obj.doc == doc
    ensures v == Reject(InvalidObject) <==> !Attached(r)
    ensures v == Reject(OtherDocument) <==> Attached(r) && r.obj.doc != doc
  {
    if !Attached(r) then Reject(InvalidObject)
    else if r.obj.doc != doc then Reject(OtherDocument)
    else Accept
  }

  /** The checks of addObject on group `self` of document `doc`.
      `isChildOf(a, b)` is the engine's answer to "is group a a child of group b". */
  function AddGuard(self: ObjectId, doc: DocumentId, r: ObjectRef, isChildOf: (ObjectId, ObjectId) -> bool): (v: Verdict)
    ensures ObjectGuard(doc, r).Reject? ==> v == ObjectGuard(doc, r)
    ensures v == Reject(GroupToItself) <==> ObjectGuard(doc, r).Accept? && r.obj.id == self
    ensures v == Reject(GroupToChild) <==>
              ObjectGuard(doc, r).Accept? && r.obj.id != self && r.obj.isGroup && isChildOf(self, r.obj.id)
    ensures v == Accept <==>
              Attached(r) && r.obj.doc == doc && r.obj.id != self && !(r.obj.isGroup && isChildOf(self, r.obj.id))
  {
    if !Attached(r) then Reject(InvalidObject)
    else if r.obj.doc != doc then Reject(OtherDocument)
    else if r.obj.id == self then Reject(GroupToItself)
    else if r.obj.isGroup && isChildOf(self, r.obj.id) then Reject(GroupToChild)
    else Accept
  }

  /** What PyObject_IsTrue makes of the optional `recursive` argument: 1, 0 or -1. */
  datatype Truth = Truthy | Falsy | TruthError

  /** The checks of hasObject; on success, the recursive flag that is forwarded. */
  function HasArguments(doc: DocumentId, r: ObjectRef, recursive: Option<Truth>): (res: Result<bool>)
    ensures ObjectGuard(doc, r).Reject? ==> res == Err(ObjectGuard(doc, r).error)
    ensures ObjectGuard(doc, r).Accept? && recursive == Some(TruthError) ==> res == Err(RecursiveNotBoolean)
    ensures res.Ok? <==> ObjectGuard(doc, r).Accept? && recursive != Some(TruthError)
    ensures res.Ok? ==> (res.value <==> recursive == Some(Truthy))
  {
    if !Attached(r) then Err(InvalidObject)
    else if r.obj.doc != doc then Err(OtherDocument)
    else if recursive.Some? then
      (match recursive.value
       case TruthError => Err(RecursiveNotBoolean)
       case Truthy => Ok(true)
       case Falsy => Ok(false))
    else Ok(false)
  }

  /** The result of newObject once the engine has tried to create the object. */
  function CreationResult(typeName: string, created: Option<DocObject>): (res: Result<DocObject>)
    ensures res.Ok? <==> created.Some?
    ensures res.Ok? ==> res.value == created.value
    ensures res.Err? ==> res.error == CannotCreate(typeName)
    ensures res.Err? ==> Message(CreateOp, res.error) == "Cannot create object of type '" + typeName + "'"
  {
    match created
    case Some(o) => Ok(o)
    case None => Err(CannotCreate(typeName))
  }

  // ---------------------------------------------------------------------
  // Routing to a Proxy override

  /** A callable attribute of the Proxy object, with the object it is bound to (`__self__`). */
  datatype BoundMethod = BoundMethod(owner: PyId)

  /** The group's "Proxy" property: absent, of another property type, or a
      scripting object whose callable attributes are given by name. */
  datatype ProxyProperty = NoProxy | NotPythonObject | PythonObject(attributes: map<string, BoundMethod>)

  datatype Route = ViaProxy(callable: BoundMethod) | Builtin

  /** The Proxy of a Python-feature group has a method `name` that is not
      bound to the group's own wrapper `wrapper`. */
  predicate Overrides(isPythonGroup: bool, proxy: ProxyProperty, name: string, wrapper: PyId) {
    isPythonGroup && proxy.PythonObject? && name in proxy.attributes
    && proxy.attributes[name].owner != wrapper
  }

  /** Where a call named `name` goes for a group whose binding wrapper is
      `wrapper`. A Proxy method that is the wrapper's own would call this
      binding again and recurse without end, so it is not called. */
  function RouteCall(isPythonGroup: bool, proxy: ProxyProperty, name: string, wrapper: PyId): (route: Route)
    ensures route.ViaProxy? <==> Overrides(isPythonGroup, proxy, name, wrapper)
    ensures route.ViaProxy? ==> route.callable == proxy.attributes[name]
  {
    if isPythonGroup then
      match proxy
      case PythonObject(attributes) =>
        if name in attributes then
          var callable := attributes[name];
          if callable.owner != wrapper then ViaProxy(callable) else Builtin
        else Builtin
      case _ => Builtin
    else Builtin
  }

  // ---------------------------------------------------------------------
  // Reference: an ordered list of checks, the first failing one decides

  datatype Check = Check(holds: bool, error: GroupError)

  function FirstFailure(checks: seq<Check>): Verdict {
    if checks == [] then Accept
    else if !checks[0].holds then Reject(checks[0].error)
    else FirstFailure(checks[1..])
  }

  /** The earliest failing check gives the error. */
  lemma {:induction false} FirstFailureEarliest(checks: seq<Check>, i: nat)
    requires i < |checks| && !checks[i].holds
    requires forall j :: 0 <= j < i ==> checks[j].holds
    ensures FirstFailure(checks) == Reject(checks[i].error)
  {
    if i > 0 {
      assert checks[0].holds;
      FirstFailureEarliest(checks[1..], i - 1);
    }
  }

  /** A chain accepts exactly when every check holds. */
  lemma {:induction false} FirstFailureAccepts(checks: seq<Check>)
    ensures FirstFailure(checks) == Accept <==> forall i :: 0 <= i < |checks| ==> checks[i].holds
  {
    if checks != [] && checks[0].holds {
      FirstFailureAccepts(checks[1..]);
      assert forall i :: 1 <= i < |checks| ==> checks[i] == checks[1..][i - 1];
    }
  }

  /** A dangling wrapper is refused before its document is looked at. */
  predicate SameDocument(r: ObjectRef, doc: DocumentId) {
    r.Live? ==> r.obj.doc == doc
  }

  predicate NotSelf(r: ObjectRef, self: ObjectId) {
    r.Live? ==> r.obj.id != self
  }

  /** The cycle check asks the engine only about candidates that are groups. */
  predicate NotParentGroup(r: ObjectRef, self: ObjectId, isChildOf: (ObjectId, ObjectId) -> bool) {
    r.Live? && r.obj.isGroup ==> !isChildOf(self, r.obj.id)
  }

  function ObjectChecks(doc: DocumentId, r: ObjectRef): seq<Check> {
    [Check(Attached(r), InvalidObject), Check(SameDocument(r, doc), OtherDocument)]
  }

  function AddChecks(self: ObjectId, doc: DocumentId, r: ObjectRef, isChildOf: (ObjectId, ObjectId) -> bool): seq<Check> {
    ObjectChecks(doc, r)
    + [Check(NotSelf(r, self), GroupToItself), Check(NotParentGroup(r, self, isChildOf), GroupToChild)]
  }

  lemma ObjectGuardIsChain(doc: DocumentId, r: ObjectRef)
    ensures ObjectGuard(doc, r) == FirstFailure(ObjectChecks(doc, r))
  {
    var cs := ObjectChecks(doc, r);
    if !Attached(r) {
      FirstFailureEarliest(cs, 0);
    } else if r.obj.doc != doc {
      FirstFailureEarliest(cs, 1);
    } else {
      FirstFailureAccepts(cs);
    }
  }

  lemma AddGuardIsChain(self: ObjectId, doc: DocumentId, r: ObjectRef, isChildOf: (ObjectId, ObjectId) -> bool)
    ensures AddGuard(self, doc, r, isChildOf) == FirstFailure(AddChecks(self, doc, r, isChildOf))
  {
    var cs := AddChecks(self, doc, r, isChildOf);
    if !Attached(r) {
      FirstFailureEarliest(cs, 0);
    } else if r.obj.doc != doc {
      FirstFailureEarliest(cs, 1);
    } else if r.obj.id == self {
      FirstFailureEarliest(cs, 2);
    } else if r.obj.isGroup && isChildOf(self, r.obj.id) {
      FirstFailureEarliest(cs, 3);
    } else {
      FirstFailureAccepts(cs);
    }
  }

  /** addObject: the i-th of its four checks decides the error when it is the
      first one to fail, and the call is accepted when none fails. */
  lemma AddFirstFailingCheckDecides(self: ObjectId, doc: DocumentId, r: ObjectRef,
                                    isChildOf: (ObjectId, ObjectId) -> bool, i: nat)
    requires i < |AddChecks(self, doc, r, isChildOf)|
    requires !AddChecks(self, doc, r, isChildOf)[i].holds
    requires forall j :: 0 <= j < i ==> AddChecks(self, doc, r, isChildOf)[j].holds
    ensures AddGuard(self, doc, r, isChildOf) == Reject(AddChecks(self, doc, r, isChildOf)[i].error)
    ensures AddGuard(self, doc, r, isChildOf) == Reject([InvalidObject, OtherDocument, GroupToItself, GroupToChild][i])
  {
    AddGuardIsChain(self, doc, r, isChildOf);
    FirstFailureEarliest(AddChecks(self, doc, r, isChildOf), i);
  }

  /** removeObject and hasObject: the same, for their two checks. */
  lemma ObjectFirstFailingCheckDecides(doc: DocumentId, r: ObjectRef, i: nat)
    requires i < |ObjectChecks(doc, r)|
    requires !ObjectChecks(doc, r)[i].holds
    requires forall j :: 0 <= j < i ==> ObjectChecks(doc, r)[j].holds
    ensures ObjectGuard(doc, r) == Reject([InvalidObject, OtherDocument][i])
  {
    ObjectGuardIsChain(doc, r);
    FirstFailureEarliest(ObjectChecks(doc, r), i);
  }

  /** The engine's isChildOf is consulted only for a candidate that is an
      attached group of the same document other than the group itself: for
      every other candidate the verdict does not depend on it. */
  lemma CycleCheckOnlyForGroups(self: ObjectId, doc: DocumentId, r: ObjectRef,
                                 f: (ObjectId, ObjectId) -> bool, g: (ObjectId, ObjectId) -> bool)
    requires !(Attached(r) && r.obj.doc == doc && r.obj.id != self && r.obj.isGroup)
    ensures AddGuard(self, doc, r, f) == AddGuard(self, doc, r, g)
    ensures Attached(r) && r.obj.doc == doc && r.obj.id != self ==> AddGuard(self, doc, r, f) == Accept
  {
  }

  /** removeObject has no self check: the object addObject refuses as the
      group itself passes the checks of removeObject. */
  lemma RemoveAcceptsGroupItself(self: ObjectId, doc: DocumentId, r: ObjectRef, isChildOf: (ObjectId, ObjectId) -> bool)
    requires AddGuard(self, doc, r, isChildOf) == Reject(GroupToItself)
    ensures ObjectGuard(doc, r) == Accept
  {
  }
}
