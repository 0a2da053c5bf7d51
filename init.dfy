/** Init options and context of the static package: plain structs that the
    entry points overwrite in place behind null and identifier checks.
    Zero-initialised (no identifier) -> initialised -> finalised, which is
    zero-initialised again. */
module Init {
  import opened Common

  /** An rcutils allocator, reduced to what the entry points look at: whether
      all its function pointers are set (the validity check) and an opaque
      state that is copied along. */
  datatype Allocator = Allocator(complete: bool, state: nat)

  predicate AllocatorValid(a: Allocator)
  {
    a.complete
  }

  /** The zero-initialised allocator: every pointer null, hence invalid. */
  const ZeroAllocator: Allocator := Allocator(false, 0)

  /** rmw_init_options_t: instance id, implementation identifier, allocator
      and the implementation pointer (only ever set to null here). */
  class InitOptions {
    var instanceId: nat
    var identifier: Identifier
    var allocator: Allocator
    var hasImpl: bool

    /** rmw_get_zero_initialized_init_options. */
    constructor ()
      ensures IsZero()
    {
      instanceId, identifier, allocator, hasImpl := 0, None, ZeroAllocator, false;
    }

    predicate IsZero()
      reads this
    {
      instanceId == 0 && identifier == None && allocator == ZeroAllocator && !hasImpl
    }
  }

  /** rmw_context_t: instance id, implementation identifier and the
      implementation pointer. */
  class Context {
    var instanceId: nat
    var identifier: Identifier
    var hasImpl: bool

    /** rmw_get_zero_initialized_context. */
    constructor ()
      ensures IsZero()
    {
      instanceId, identifier, hasImpl := 0, None, false;
    }

    predicate IsZero()
      reads this
    {
      instanceId == 0 && identifier == None && !hasImpl
    }
  }

  /** rmw_init_options_init: null options or an invalid allocator are invalid
      arguments, and so are options that already carry an identifier;
      otherwise the options are set to instance 0, this implementation, the
      given allocator and no implementation data. */
  method InitOptionsInit(options: InitOptions?, allocator: Allocator) returns (ret: RetCode)
    modifies options
    ensures ret == (if options == null || !AllocatorValid(allocator) || old(options.identifier) != None
                    then InvalidArgument else Ok)
    ensures options != null && ret != Ok ==> unchanged(options)
    ensures ret == Ok ==>
      && options.instanceId == 0 && options.identifier == Implementation
      && options.allocator == allocator && !options.hasImpl
  {
    if options == null || !AllocatorValid(allocator) {
      return InvalidArgument;
    }
    if options.identifier != None {
      return InvalidArgument;
    }
    options.instanceId := 0;
    options.identifier := Implementation;
    options.allocator := allocator;
    options.hasImpl := false;
    ret := Ok;
  }

  /** rmw_init_options_copy: null source or destination is an invalid
      argument, a source of another implementation is refused, a destination
      that is not zero-initialised is an invalid argument; otherwise the
      destination becomes a field-for-field copy of the source. */
  method InitOptionsCopy(src: InitOptions?, dst: InitOptions?) returns (ret: RetCode)
    modifies dst
    ensures ret ==
      (if src == null || dst == null then InvalidArgument
       else if old(src.identifier) != Implementation then IncorrectRmwImplementation
       else if old(dst.identifier) != None then InvalidArgument
       else Ok)
    ensures dst != null && ret != Ok ==> unchanged(dst)
    ensures ret == Ok ==>
      && dst.instanceId == old(src.instanceId) && dst.identifier == old(src.identifier)
      && dst.allocator == old(src.allocator) && dst.hasImpl == old(src.hasImpl)
  {
    if src == null || dst == null {
      return InvalidArgument;
    }
    if src.identifier != Implementation {
      return IncorrectRmwImplementation;
    }
    if dst.identifier != None {
      return InvalidArgument;
    }
    dst.instanceId, dst.identifier, dst.allocator, dst.hasImpl :=
      src.instanceId, src.identifier, src.allocator, src.hasImpl;
    ret := Ok;
  }

  /** rmw_init_options_fini: null options or options with an invalid
      allocator are invalid arguments (checked before the identifier),
      options of another implementation are refused; otherwise the options
      are reset to zero-initialised. */
  method InitOptionsFini(options: InitOptions?) returns (ret: RetCode)
    modifies options
    ensures ret ==
      (if options == null || !AllocatorValid(old(options.allocator)) then InvalidArgument
       else if old(options.identifier) != Implementation then IncorrectRmwImplementation
       else Ok)
    ensures options != null && ret != Ok ==> unchanged(options)
    ensures ret == Ok ==> options.IsZero()
  {
    if options == null || !AllocatorValid(options.allocator) {
      return InvalidArgument;
    }
    if options.identifier != Implementation {
      return IncorrectRmwImplementation;
    }
    options.instanceId, options.identifier, options.allocator, options.hasImpl := 0, None, ZeroAllocator, false;
    ret := Ok;
  }

  /** rmw_init: null options or context are invalid arguments, options of
      another implementation are refused; otherwise the context takes the
      options' instance id, this implementation and no implementation data.
      Whether the vendor's participant factory is available is only logged:
      the call succeeds either way. */
  method RmwInit(options: InitOptions?, context: Context?, factoryAvailable: bool) returns (ret: RetCode)
    modifies context
    ensures ret ==
      (if options == null || context == null then InvalidArgument
       else if old(options.identifier) != Implementation then IncorrectRmwImplementation
       else Ok)
    ensures context != null && ret != Ok ==> unchanged(context)
    ensures ret == Ok ==>
      && context.instanceId == old(options.instanceId) && context.identifier == Implementation
      && !context.hasImpl
  {
    if options == null || context == null {
      return InvalidArgument;
    }
    if options.identifier != Implementation {
      return IncorrectRmwImplementation;
    }
    context.instanceId := options.instanceId;
    context.identifier := Implementation;
    context.hasImpl := false;
    if !factoryAvailable {
      // Only an error message is set; initialisation still succeeds.
    }
    ret := Ok;
  }

  /** rmw_shutdown: a notification only; it changes nothing and succeeds
      exactly for a non-null context of this implementation. */
  method Shutdown(context: Context?) returns (ret: RetCode)
    ensures ret ==
      (if context == null then InvalidArgument
       else if context.identifier != Implementation then IncorrectRmwImplementation
       else Ok)
  {
    if context == null {
      return InvalidArgument;
    }
    if context.identifier != Implementation {
      return IncorrectRmwImplementation;
    }
    ret := Ok;
  }

  /** rmw_context_fini: after the null and identifier checks the context is
      reset to zero-initialised. */
  method ContextFini(context: Context?) returns (ret: RetCode)
    modifies context
    ensures ret ==
      (if context == null then InvalidArgument
       else if old(context.identifier) != Implementation then IncorrectRmwImplementation
       else Ok)
    ensures context != null && ret != Ok ==> unchanged(context)
    ensures ret == Ok ==> context.IsZero()
  {
    if context == null {
      return InvalidArgument;
    }
    if context.identifier != Implementation {
      return IncorrectRmwImplementation;
    }
    context.instanceId, context.identifier, context.hasImpl := 0, None, false;
    ret := Ok;
  }

  /** Initialising options twice is refused the second time, and leaves the
      first initialisation in place. */
  method InitTwiceRefused(options: InitOptions, first: Allocator, second: Allocator)
    returns (ret1: RetCode, ret2: RetCode)
    requires options.IsZero() && AllocatorValid(first)
    modifies options
    ensures ret1 == Ok && ret2 == InvalidArgument
    ensures options.identifier == Implementation && options.allocator == first
  {
    ret1 := InitOptionsInit(options, first);
    ret2 := InitOptionsInit(options, second);
  }

  /** Finalising initialised options makes them initialisable again, with
      any valid allocator. */
  method FiniThenInit(options: InitOptions, allocator: Allocator) returns (ret1: RetCode, ret2: RetCode)
    requires options.identifier == Implementation && AllocatorValid(options.allocator)
    requires AllocatorValid(allocator)
    modifies options
    ensures ret1 == Ok && ret2 == Ok
    ensures options.instanceId == 0 && options.identifier == Implementation && options.allocator == allocator
  {
    ret1 := InitOptionsFini(options);
    ret2 := InitOptionsInit(options, allocator);
  }

  /** The whole context lifecycle from zero-initialised options: init the
      options, copy them into fresh options, init a context from the copy,
      shut it down and finalise it; every step succeeds, the context ends
      zero-initialised and the copy keeps the original's allocator. */
  method ContextLifecycle(allocator: Allocator, factoryAvailable: bool)
    returns (rets: seq<RetCode>, copy: InitOptions, context: Context)
    requires AllocatorValid(allocator)
    ensures rets == [Ok, Ok, Ok, Ok, Ok]
    ensures context.IsZero() && copy.allocator == allocator && copy.identifier == Implementation
  {
    var options := new InitOptions();
    copy := new InitOptions();
    context := new Context();
    var r1 := InitOptionsInit(options, allocator);
    var r2 := InitOptionsCopy(options, copy);
    var r3 := RmwInit(copy, context, factoryAvailable);
    var r4 := Shutdown(context);
    var r5 := ContextFini(context);
    rets := [r1, r2, r3, r4, r5];
  }
}
