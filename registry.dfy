/** The inbound half of `NeverLiieIPC` (ipclib/core.py): the table of exposed
    functions that the serving thread dispatches on, filled by `expose`. */
module Registry {
  import opened Values

  /** A Python function, by its `__name__` and its identity. */
  datatype Func = Func(name: string, id: nat)

  /** The argument of `expose`: a callable (bare decorator use) or any other value;
      `Plain(VNone)` is the default. */
  datatype ExposeArg = Callable(f: Func) | Plain(v: Value)

  /** What `expose` returns: the function itself once registered, or the decorator
      closure waiting for the function, holding `expose`'s argument. */
  datatype Exposed = Registered(f: Func) | Decorator(nameOrFunc: Value)

  /** The name the decorator closure registers `func` under: `expose`'s argument
      when it is a string, else the function's own name. */
  function RegisteredName(nameOrFunc: Value, func: Func): string
  {
    if nameOrFunc.VStr? then nameOrFunc.s else func.name
  }

  class NeverLiieIPC {
    const appName: string
    /** Exposed functions by name. */
    var methods: map<string, Func>

    /** A fresh instance starts with an empty table. */
    constructor (appName: string)
      ensures this.appName == appName && methods == map[]
    {
      this.appName := appName;
      methods := map[];
    }

    /** `expose(name_or_func)`. A callable is registered under its own name, replacing
        any function of that name, and given back unchanged. Any other argument
        leaves the table as it is and gives back the decorator. */
    method Expose(arg: ExposeArg) returns (r: Exposed)
      modifies this
      ensures arg.Callable? ==> r == Registered(arg.f) && methods == old(methods)[arg.f.name := arg.f]
      ensures arg.Plain? ==> r == Decorator(arg.v) && methods == old(methods)
    {
      match arg
      case Callable(f) =>
        methods := methods[f.name := f];
        r := Registered(f);
      case Plain(v) =>
        r := Decorator(v);
    }

    /** The decorator closure that `expose(name_or_func)` returned, applied to `func`.
        It registers `func` under `name_or_func` when that is a string, else under
        `func`'s own name, and replaces any function of that name. It leaves every
        other entry as it was and gives `func` back unchanged. */
    method Decorate(nameOrFunc: Value, func: Func) returns (r: Func)
      modifies this
      ensures r == func
      ensures methods == old(methods)[RegisteredName(nameOrFunc, func) := func]
      ensures nameOrFunc.VStr? ==> nameOrFunc.s in methods && methods[nameOrFunc.s] == func
      ensures !nameOrFunc.VStr? ==> func.name in methods && methods[func.name] == func
      ensures forall k :: k in old(methods) && k != RegisteredName(nameOrFunc, func) ==>
        k in methods && methods[k] == old(methods)[k]
    {
      methods := methods[RegisteredName(nameOrFunc, func) := func];
      r := func;
    }
  }
}
