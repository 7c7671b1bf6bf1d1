/** A UI command: a callable bound together with a fixed tuple of arguments
    (includes/UIClasses/UIBaseHandler.h). The handler is a value: nothing can
    change its callable or its arguments once it is built, and executing it
    produces an invocation of the callable on exactly those arguments. What a
    callable does when invoked is given by the component that bound it. */
module Handlers {
  import opened Linear

  /** The part of a game object's transform a slider edits. */
  datatype Transform = Position | Scale

  /** The callables the engine binds to its elements, plus any other callable
      identified by a number. */
  datatype Callable =
    | RecompileShader                                    // reload a shader from its recorded sources
    | SetObjectComponent(part: Transform, axis: Axis)    // copy a slider's value into one transform component
    | ApplyViewMode                                      // set the polygon mode from a select's index
    | ShowShaderInfo                                     // fill the shader info panel for the selected shader
    | ShowGameObjectInfo                                 // fill the object info panel for the selected object
    | Bound(id: nat)

  /** A bound argument: a copied value or a captured pointer. */
  datatype Arg = Text(text: string) | Number(number: real) | Integer(integer: int) | Pointer(target: object)

  /** UIHandler<Func, Args...>: the callable and the argument tuple. */
  datatype Handler = Handler(callable: Callable, args: seq<Arg>)

  /** One call of a callable, as std::apply performs it. */
  datatype Invocation = Invocation(callable: Callable, args: seq<Arg>)

  /** execute(): applies the stored callable to the stored tuple. It returns
      nothing to its caller; the invocation stands for the callable's effects. */
  function Execute(h: Handler): Invocation
  {
    Invocation(h.callable, h.args)
  }
}
