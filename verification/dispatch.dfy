/**
 * `execute_function_call`: look a tool name up in the registry and run the
 * capability it names, turning every failure into an error record.
 */
module Dispatch {

  import opened Common
  import opened Registry

  /** What running a registered Python function does: return a record or raise. */
  datatype CallOutcome = Returned(value: Json) | Raised(message: string)

  /**
   * The registered functions, as one abstract oracle. An argument-shape
   * mismatch (the TypeError of `function(**function_args)`) is one of the
   * ways it raises.
   */
  type Impl = (Capability, Json) -> CallOutcome

  /** `{"error": message}`. */
  function ErrorRecord(message: string): Json
  {
    JObject(map["error" := JStr(message)])
  }

  function NotFoundMessage(name: string): string
  {
    "Function " + name + " not found"
  }

  /**
   * The dispatcher never raises: an unknown name gives the not-found error
   * record, a raising capability gives `{"error": str(e)}`, and otherwise the
   * capability's own record is returned unchanged.
   */
  function ExecuteFunctionCall(impl: Impl, name: string, args: Json): (r: Json)
    ensures Lookup(name).None? ==> r == ErrorRecord(NotFoundMessage(name))
    ensures Lookup(name).Some? && impl(Lookup(name).value, args).Raised? ==>
      r == ErrorRecord(impl(Lookup(name).value, args).message)
    ensures Lookup(name).Some? && impl(Lookup(name).value, args).Returned? ==>
      r == impl(Lookup(name).value, args).value
  {
    match Lookup(name)
    case None => ErrorRecord(NotFoundMessage(name))
    case Some(capability) =>
      match impl(capability, args)
      case Returned(record) => record
      case Raised(message) => ErrorRecord(message)
  }

  /**
   * The dispatcher consults the registered functions only at the capability
   * the name is registered under and only with the given arguments; for an
   * unknown name it consults none of them.
   */
  lemma DispatchReadsOnlyTheNamedCall(impl1: Impl, impl2: Impl, name: string, args: Json)
    requires Lookup(name).Some? ==> impl1(Lookup(name).value, args) == impl2(Lookup(name).value, args)
    ensures ExecuteFunctionCall(impl1, name, args) == ExecuteFunctionCall(impl2, name, args)
  {
  }

  /** The not-found message names the tool: it is "Function ", the name, " not found". */
  lemma NotFoundMessageNamesTool(name: string)
    ensures var m := NotFoundMessage(name);
      |m| == |name| + 19 && m[9..9 + |name|] == name
  {
  }
}
