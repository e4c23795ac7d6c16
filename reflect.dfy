/**
 * The part of Go's reflection that the step registry and the parameter
 * register inspect: a type's kind (pointer or not), its element type, its
 * package path and its name, and the parameter and result types of a
 * function value.
 */
module Reflect {

  datatype Ty =
    | Basic(name: string)                    // a predeclared type: int, string, error, ...
    | Declared(pkgPath: string, name: string) // a type declared in a package: context.Context, a struct, ...
    | Pointer(elem: Ty)                      // *elem
    | Literal(text: string)                  // an unnamed type literal: []int, map[string]int, func(...), ...

  /** reflect.Type.PkgPath(): empty for predeclared and unnamed types. */
  function PkgPath(t: Ty): string {
    if t.Declared? then t.pkgPath else ""
  }

  /** reflect.Type.Name(): empty for unnamed types (pointers and literals). */
  function Name(t: Ty): string {
    match t
    case Basic(n) => n
    case Declared(_, n) => n
    case Pointer(_) => ""
    case Literal(_) => ""
  }

  /** `if t.Kind() == reflect.Ptr { t = t.Elem() }`: strips exactly one pointer level. */
  function Deref(t: Ty): Ty {
    if t.Pointer? then t.elem else t
  }

  /** The interface type context.Context. */
  const ContextType: Ty := Declared("context", "Context")

  /**
   * A value passed where the source takes `interface{}` for a callable:
   * either not a function at all, or a function with its parameter and
   * result types.
   */
  datatype Callable = NotFunc | Func(params: seq<Ty>, results: seq<Ty>)
}
