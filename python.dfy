/** The slice of the Python runtime that the three snippets rely on: the values
    that make up cache keys, classes as identities with their declared bases,
    instances as heap objects, and the two exceptions the partition code can raise. */
module Python {

  datatype Option<+T> = None | Some(value: T)

  /** The exceptions raised on the paths that are modelled:
      `int()` on a non-numeric slice, and `None.upper()`. */
  datatype PyError = ValueError | AttributeError

  datatype Result<+T> = Ok(value: T) | Err(error: PyError)

  /** Hashable argument values, compared structurally (tuples element by element). */
  datatype PyValue = Int(i: int) | Str(s: string) | Tuple(items: seq<PyValue>)

  /** The identity of a class object. */
  type ClassId = nat

  /** A class: its identity and `__bases__`. Only `object` itself has an empty
      `__bases__`; every class these metaclasses can be applied to has at least one
      base (a class with no declared base has `(object,)`). */
  datatype PyClass = PyClass(id: ClassId, bases: seq<ClassId>)

  /** `cls.__bases__[-1]`, the last declared base. */
  function LastBase(cls: PyClass): ClassId
    requires cls.bases != []
  {
    cls.bases[|cls.bases| - 1]
  }

  /** An instance built by `type.__call__(cls, *args, **kwargs)`; its identity
      is the Dafny reference. */
  class PyObject {
    const cls: PyClass
    const args: seq<PyValue>
    const kwargs: seq<(string, PyValue)>

    constructor (cls: PyClass, args: seq<PyValue>, kwargs: seq<(string, PyValue)>)
      ensures this.cls == cls && this.args == args && this.kwargs == kwargs
    {
      this.cls := cls;
      this.args := args;
      this.kwargs := kwargs;
    }
  }
}
