/** The class-file transformer: the per-load-event decision of the Spy agent. */
module Transformer {
  import opened Java

  /** Internal (slash-separated) name of the one class the agent replaces. */
  const OriginalClassName: string := "com/wilke/Information"

  /** Resource path, at the root of the agent jar, of the substitute class file. */
  const SubstituteClassPath: string := "Information.class"

  /** What transform hands back to the JVM: null (leave the class as loaded)
      or the bytes to define the class from. */
  datatype Decision = NoChange | Replace(bytes: seq<bv8>)

  /** A Spy transformer. Its only state is the substitute image cached by the
      class initialiser in a static final field, so a Spy is a value. */
  datatype Spy = Spy(substituteByteCode: seq<bv8>) {

    /** ClassFileTransformer.transform. The loader, the class being
        redefined, the protection domain and the original class-file bytes
        are type-generic or unread; a null className makes the equality test
        throw. */
    function Transform<L, C, P>(loader: L, className: Option<string>, classBeingRedefined: C,
                                protectionDomain: P, classfileBuffer: seq<bv8>): (r: Result<Decision, Throwable>)
      ensures r == Ok(Replace(substituteByteCode)) <==> className == Some(OriginalClassName)
      ensures r == Ok(NoChange) <==> className.Some? && className.value != OriginalClassName
      ensures r.Err? <==> className.None?
      ensures r.Err? ==> r.error == NullPointerException
    {
      match className
      case None => Err(NullPointerException)
      case Some(name) => if name == OriginalClassName then Ok(Replace(substituteByteCode)) else Ok(NoChange)
    }
  }

  /** The decision depends on the class name alone: every other argument,
      including the original class-file bytes, can change without effect. */
  lemma TransformIgnoresContext<L, C, P>(spy: Spy, className: Option<string>,
                                         loader1: L, loader2: L, redefined1: C, redefined2: C,
                                         domain1: P, domain2: P, buffer1: seq<bv8>, buffer2: seq<bv8>)
    ensures spy.Transform(loader1, className, redefined1, domain1, buffer1)
         == spy.Transform(loader2, className, redefined2, domain2, buffer2)
  {
  }

  /** Two Spy transformers built from the same cached image decide every
      load event identically, so registering more than one, or asking the
      same one again, never changes a decision or the bytes it carries. */
  lemma TransformIsStateless<L, C, P>(spy1: Spy, spy2: Spy, loader: L, className: Option<string>,
                                      redefined: C, domain: P, buffer: seq<bv8>)
    requires spy1.substituteByteCode == spy2.substituteByteCode
    ensures spy1.Transform(loader, className, redefined, domain, buffer)
         == spy2.Transform(loader, className, redefined, domain, buffer)
  {
  }

  /** Matching is verbatim: the resource path of the substitute, the dotted
      binary name of the target and the target's class-file path are not
      the internal name and so are left alone. */
  lemma NearMissesAreNotReplaced<L, C, P>(spy: Spy, loader: L, redefined: C, domain: P, buffer: seq<bv8>)
    ensures spy.Transform(loader, Some(SubstituteClassPath), redefined, domain, buffer) == Ok(NoChange)
    ensures spy.Transform(loader, Some("com.wilke.Information"), redefined, domain, buffer) == Ok(NoChange)
    ensures spy.Transform(loader, Some(OriginalClassName + ".class"), redefined, domain, buffer) == Ok(NoChange)
  {
  }

  /** No name containing a '.' is ever replaced, because the target name is
      written with '/' separators only. */
  lemma DottedNamesAreNotReplaced<L, C, P>(spy: Spy, loader: L, name: string, redefined: C,
                                           domain: P, buffer: seq<bv8>)
    requires '.' in name
    ensures spy.Transform(loader, Some(name), redefined, domain, buffer) == Ok(NoChange)
  {
    assert '.' !in OriginalClassName;
  }
}
