/** The agent's lifecycle: the JVM initialises the Spy class, and only if
    that succeeds calls premain, which registers one Spy transformer with the
    instrumentation facility. */
module Agent {
  import opened Java
  import opened Transformer
  import opened SubstituteLoader

  /** The JVM's instrumentation facility as far as the agent uses it: the
      transformers registered with it, in order. */
  class Instrumentation {
    var transformers: seq<Spy>

    constructor ()
      ensures transformers == []
    {
      transformers := [];
    }

    /** addTransformer: appends the transformer and changes nothing else. */
    method AddTransformer(t: Spy)
      modifies this
      ensures transformers == old(transformers) + [t]
    {
      transformers := transformers + [t];
    }
  }

  /** The hook's two states; there is no way back from Active. */
  datatype Lifecycle = Unregistered | Active

  /** The Spy class after its static initialiser completed: the cached
      substitute image, fixed for good, and the hook's state. */
  class SpyClass {
    const substituteByteCode: seq<bv8>
    var state: Lifecycle

    /** Only a successful class initialisation produces a usable class. */
    constructor (ghost resource: Option<Resource>, image: seq<bv8>)
      requires ClassInit(resource) == Ok(image)
      ensures substituteByteCode == image
      ensures state == Unregistered
    {
      substituteByteCode := image;
      state := Unregistered;
    }

    /** premain: the argument string is unused; exactly one new transformer,
        built on the cached image, is registered, and the hook is Active. */
    method Premain(agentArgument: string, instrumentation: Instrumentation)
      modifies this`state, instrumentation
      ensures instrumentation.transformers == old(instrumentation.transformers) + [Spy(substituteByteCode)]
      ensures state == Active
    {
      instrumentation.AddTransformer(Spy(substituteByteCode));
      state := Active;
    }
  }

  /** Static attach: class initialisation, then premain. A failed
      initialisation leaves the instrumentation untouched and yields no
      class; otherwise the class is Active with the whole resource as its
      image and one Spy registered. */
  method Launch(resource: Option<Resource>, agentArgument: string, instrumentation: Instrumentation)
      returns (r: Result<SpyClass, InitError>)
    modifies instrumentation
    ensures ClassInit(resource).Err? ==>
              r == Err(ClassInit(resource).error)
              && instrumentation.transformers == old(instrumentation.transformers)
    ensures ClassInit(resource).Ok? ==>
              r.Ok? && fresh(r.value) && r.value.state == Active
              && r.value.substituteByteCode == Concat(resource.value.chunks)
              && instrumentation.transformers == old(instrumentation.transformers) + [Spy(r.value.substituteByteCode)]
  {
    var image := StaticInitialiser(resource);
    if image.Err? {
      r := Err(image.error);
      return;
    }
    var spyClass := new SpyClass(resource, image.value);
    spyClass.Premain(agentArgument, instrumentation);
    r := Ok(spyClass);
  }

  /** End to end: once the agent is active, a load of the target class gets
      the resource's bytes exactly, and every other name is left alone. */
  lemma ActiveAgentDecisions<L, C, P>(resource: Option<Resource>, name: string,
                                      loader: L, redefined: C, domain: P, buffer: seq<bv8>)
    requires ClassInit(resource).Ok?
    ensures var hook := Spy(ClassInit(resource).value);
            hook.Transform(loader, Some(name), redefined, domain, buffer)
            == if name == OriginalClassName then Ok(Replace(Concat(resource.value.chunks))) else Ok(NoChange)
  {
  }
}
