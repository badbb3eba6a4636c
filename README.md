# Group membership guard of FreeCAD's document-object group binding

This project models `App::DocumentObjectGroupPy`, the scripting binding of a
FreeCAD document-object group. Every call that changes or queries the group's
membership first checks the object it is given. The checks run in a fixed
order and the first one that fails decides the error. A call that passes is
then handed either to a user-supplied `Proxy` override or to the group's
built-in operation.

The project has two modules:

- `GroupChecks` (`checks.dfy`) holds a document object as the binding sees it
  (`DocObject`, `ObjectRef`) and the error kinds (`GroupError`), with their
  exception type and message text. It holds the check chains of `addObject`
  (`AddGuard`), of `removeObject` and `hasObject` (`ObjectGuard`,
  `HasArguments`) and the result mapping of `newObject` (`CreationResult`). It
  also holds the proxy routing decision (`RouteCall`). As an independent
  reference, `FirstFailure` runs an ordered list of checks and returns the
  error of the first that fails. Lemmas prove each chain equal to its list and
  characterise `FirstFailure` fully.
- `GroupPy` (`group.dfy`) holds the step functions `AddStep` and `RemoveStep`
  and the class `Group`.
  - The step functions act on a group state: the membership plus the calls
    handed to the override.
  - `Group.AddObject` and `Group.RemoveObject` update that state in place and
    are proved equal to the step functions; they and `Group.HasObject` also
    return the exception the caller receives on a rejection.
    `Group.NewObject` and `Group.RemoveObjectsFromDocument` are tied directly
    to the engine's functions, and `Group.HasObject` and `Group.GetObject`
    change nothing.
  - The group's own operations (`DocumentObjectGroup::addObject`,
    `removeObject`, `hasObject`, `getObject`, `removeObjectsFromDocument` and
    creation by type name) are the fields of an `Engine` over an opaque
    membership type `S`.
  - `isChildOf` is a function parameter: `isChildOf(a, b)` says whether group
    `a` is a child of group `b`.

What is proved:

- which error results, and in which order the checks are made;
- that a rejected call changes nothing;
- that the cycle check asks the engine only about candidates that are groups;
- that exactly one of the override and the built-in operation runs, and which;
- that `hasObject` and `getObject` only forward the engine's answer.

## Model

| member | source | states |
|---|---|---|
| GroupChecks.ExceptionOf | src/App/DocumentObjectGroupPyImp.cpp:181-195 | only the unreadable recursive flag raises a ValueError; every other error raises a FreeCAD error |
| GroupChecks.Message | src/App/DocumentObjectGroupPyImp.cpp:65-123 | the text of every object-check error starts by naming the operation that refused it ("Cannot add", "Cannot remove", "Cannot check"); the creation error's text carries the requested type name at a fixed place |
| GroupChecks.RaiseIdentifiesError | src/App/DocumentObjectGroupPyImp.cpp:65-83 | within one operation, two errors that operation can report raise different exceptions, so the caller can tell which check failed (for creation: which type was asked for) |
| GroupChecks.ObjectGuard | src/App/DocumentObjectGroupPyImp.cpp:116-123 | accepts exactly an attached object of the group's document; an unattached object (no object, or no name in the document) gives InvalidObject, an attached one from another document gives OtherDocument; no other error |
| GroupChecks.AddGuard | src/App/DocumentObjectGroupPyImp.cpp:65-83 | every rejection of ObjectGuard is also addObject's; after those, the group itself gives GroupToItself, then a group candidate of which this group is a child gives GroupToChild; it accepts exactly the attached same-document objects that are neither the group itself nor a group this group is a child of |
| GroupChecks.HasArguments | src/App/DocumentObjectGroupPyImp.cpp:181-196 | the object checks come first and their error wins; then a recursive argument that cannot be read as a truth value gives RecursiveNotBoolean; otherwise the forwarded flag is true exactly when the argument is given and true (missing means false) |
| GroupChecks.CreationResult | src/App/DocumentObjectGroupPyImp.cpp:48-55 | the created object is returned when there is one; otherwise the error is CannotCreate with the requested type name, and its message is "Cannot create object of type '<type>'" |
| GroupChecks.RouteCall | src/App/DocumentObjectGroupPyImp.cpp:87-103 | the override is called exactly when the group is a Python-feature group, its Proxy is a Python object with the method, and that method is not bound to this same wrapper; the override is then the Proxy's method of that name; otherwise the built-in operation runs |
| GroupChecks.FirstFailureEarliest | src/App/DocumentObjectGroupPyImp.cpp:65-83 | in an ordered list of checks, the first failing check decides the error |
| GroupChecks.FirstFailureAccepts | src/App/DocumentObjectGroupPyImp.cpp:65-85 | an ordered list of checks accepts exactly when every check holds |
| GroupChecks.ObjectGuardIsChain | src/App/DocumentObjectGroupPyImp.cpp:116-123 | the two checks of removeObject and hasObject are the ordered list [attached, same document] |
| GroupChecks.AddGuardIsChain | src/App/DocumentObjectGroupPyImp.cpp:65-83 | the checks of addObject are the ordered list [attached, same document, not itself, not a group it is a child of] |
| GroupChecks.AddFirstFailingCheckDecides | src/App/DocumentObjectGroupPyImp.cpp:65-83 | when the i-th check of addObject is the first to fail, the error is the i-th of InvalidObject, OtherDocument, GroupToItself, GroupToChild |
| GroupChecks.ObjectFirstFailingCheckDecides | src/App/DocumentObjectGroupPyImp.cpp:181-188 | the same for the two checks of removeObject and hasObject: InvalidObject, then OtherDocument |
| GroupChecks.CycleCheckOnlyForGroups | src/App/DocumentObjectGroupPyImp.cpp:77-83 | unless the candidate is an attached group of the same document other than the group itself, the verdict does not depend on isChildOf; a non-group candidate that passes the first three checks is always accepted |
| GroupChecks.RemoveAcceptsGroupItself | src/App/DocumentObjectGroupPyImp.cpp:116-123 | removeObject has no self check: the group itself, refused by addObject, passes removeObject's checks |
| GroupPy.AddStep | src/App/DocumentObjectGroupPyImp.cpp:58-107 | the verdict is AddGuard's; a rejection leaves the state unchanged (no override call, no built-in call); an accepted call either appends one call to the override with membership untouched, or applies the built-in add with no override call, as the routing rule decides |
| GroupPy.RemoveStep | src/App/DocumentObjectGroupPyImp.cpp:109-147 | the same for removeObject, with ObjectGuard's verdict and the built-in remove |
| GroupPy.AddSelfBoundFallsBack | src/App/DocumentObjectGroupPyImp.cpp:92-105 | when the Proxy's addObject is bound to the group's own wrapper, an accepted addObject runs the built-in add and calls no override, whatever the Proxy's removeObject is |
| GroupPy.RemoveSelfBoundFallsBack | src/App/DocumentObjectGroupPyImp.cpp:132-145 | the same for removeObject and the built-in remove, whatever the Proxy's addObject is |
| GroupPy.Group.AddObject | src/App/DocumentObjectGroupPyImp.cpp:85-106 | the verdict and the new membership and override log are those of AddStep on the old state; on a rejection the caller receives the exception of that error with addObject's message, otherwise none |
| GroupPy.Group.RemoveObject | src/App/DocumentObjectGroupPyImp.cpp:125-146 | the verdict and the new state are those of RemoveStep on the old state; on a rejection the caller receives the exception of that error with removeObject's message, otherwise none |
| GroupPy.Group.RemoveObjectsFromDocument | src/App/DocumentObjectGroupPyImp.cpp:149-156 | no check: the membership becomes the engine's removeObjectsFromDocument of the old one; the override log is untouched |
| GroupPy.Group.NewObject | src/App/DocumentObjectGroupPyImp.cpp:42-56 | the membership becomes the engine's after creation, whether or not an object came back; the result is CreationResult of what came back |
| GroupPy.Group.HasObject | src/App/DocumentObjectGroupPyImp.cpp:172-200 | changes nothing; errors are HasArguments' errors, raised with hasObject's message; on success the answer is exactly the engine's hasObject, asked with the forwarded recursive flag, and nothing is raised |
| GroupPy.Group.GetObject | src/App/DocumentObjectGroupPyImp.cpp:158-170 | changes nothing; the answer is the engine's lookup, None for an unknown name, never an error |

## Left out

- `src/Mod/Part/App/ArcOfHyperbolaPyImp.cpp` as a whole: floating-point geometry that the OpenCascade kernel computes, plus argument parsing and printing.
- The internals of `DocumentObjectGroup` (`addObject`, `removeObject`, `hasObject`, `isChildOf`, `getObject`, `removeObjectsFromDocument`, `addObject` by type name): their code is not part of this model, so they are `Engine` functions and a parameter. No claim is made about duplicates, idempotent insertion or removal, recursive lookup, or insertion order.
- Each group is modelled alone, with its own membership value: nothing follows about how a change to one group affects another group's `hasObject` (in particular a recursive one), `getObject` or `isChildOf` answers, which in the program read the rest of the document.
- Round trips such as "add, then `hasObject` is true" and "remove after add": they depend only on that engine code.
- What a Proxy override does once called: it is scripting code, so the model records the call and the binding itself leaves the membership as it was.
- Python C-API mechanics: argument parsing and its TypeError, reference counting, and the exception objects. Errors are the `GroupError` values, with their exception type and message text.
- Exceptions raised while routing or calling an override are left out: a method with no `__self__`, an attribute that is not callable, or an error raised inside the override. The model assumes every attribute is a callable bound to some object.
- RouteCall: the `__self__ != this` test is a rich comparison of scripting objects; the model compares their identities.
- `representation`, `getCustomAttributes` and `setCustomAttributes`: constant answers with no logic.
- The source's note that the recursive-flag ValueError should not happen is not relied on: that error is kept as the input error `RecursiveNotBoolean`.
