/**
 * The part of a `bindgen::Builder` the build scripts configure, as a record.
 * Generation itself (parsing the header, writing the bindings) is outside the model.
 */
module Bindgen {
  import opened Wrappers

  datatype EnumVariation = Consts | RustEnum(nonExhaustive: bool)
  datatype AliasVariation = TypeAlias | NewType

  /** The parse-callback objects the scripts register. */
  datatype CallbackKind = CargoCallbacks | MysqlVersionCallback

  /**
   * A builder's settings. `parseCallbacks` lists the registrations in the order
   * the script makes them; whether a later registration replaces an earlier one
   * is up to the bindgen release in use.
   */
  datatype Builder = Builder(
    headers: seq<string>,
    blocklistedTypes: seq<string>,
    enumStyle: EnumVariation,
    aliasStyle: AliasVariation,
    clangArgs: seq<string>,
    parseCallbacks: seq<CallbackKind>)

  /** `bindgen::Builder::default()`. */
  const DefaultBuilder: Builder := Builder([], [], Consts, TypeAlias, [], [])

  /** The clang argument `-I<path>` that adds one include directory. */
  function IncludeArg(path: string): (arg: string)
    ensures "-I" <= arg && arg[2..] == path
  {
    "-I" + path
  }

  /** The directory an `-I` argument names, if it is one. */
  function IncludePathOf(arg: string): (r: Option<string>)
  {
    if "-I" <= arg then Some(arg[2..]) else None
  }

  /** The directories a list of clang arguments names, if every one is an `-I` argument. */
  function IncludePathsOf(args: seq<string>): (r: Option<seq<string>>)
    ensures r.Some? ==> |r.value| == |args|
  {
    if args == [] then Some([])
    else match (IncludePathOf(args[0]), IncludePathsOf(args[1..]))
      case (Some(p), Some(ps)) => Some([p] + ps)
      case _ => None
  }

  /** Arguments built one `-I` per path, in order, name exactly those paths. */
  lemma {:induction false} IncludeArgsRoundTrip(args: seq<string>, paths: seq<string>)
    requires |args| == |paths|
    requires forall k :: 0 <= k < |paths| ==> args[k] == IncludeArg(paths[k])
    ensures IncludePathsOf(args) == Some(paths)
  {
    if paths != [] {
      assert IncludePathOf(args[0]) == Some(paths[0]);
      IncludeArgsRoundTrip(args[1..], paths[1..]);
      assert paths == [paths[0]] + paths[1..];
    }
  }

  /**
   * The `for path in include_paths { builder = builder.clang_arg(..) }` loop:
   * one `-I<path>` appended per path, in input order, nothing else touched.
   */
  method AddIncludeArgs(b: Builder, includePaths: seq<string>) returns (r: Builder)
    ensures r == b.(clangArgs := r.clangArgs)
    ensures |r.clangArgs| == |b.clangArgs| + |includePaths|
    ensures r.clangArgs[..|b.clangArgs|] == b.clangArgs
    ensures forall k :: 0 <= k < |includePaths| ==> r.clangArgs[|b.clangArgs| + k] == IncludeArg(includePaths[k])
    ensures IncludePathsOf(r.clangArgs[|b.clangArgs|..]) == Some(includePaths)
  {
    r := b;
    for i := 0 to |includePaths|
      invariant r == b.(clangArgs := r.clangArgs)
      invariant |r.clangArgs| == |b.clangArgs| + i
      invariant r.clangArgs[..|b.clangArgs|] == b.clangArgs
      invariant forall k :: 0 <= k < i ==> r.clangArgs[|b.clangArgs| + k] == IncludeArg(includePaths[k])
    {
      r := r.(clangArgs := r.clangArgs + [IncludeArg(includePaths[i])]);
    }
    IncludeArgsRoundTrip(r.clangArgs[|b.clangArgs|..], includePaths);
  }
}
