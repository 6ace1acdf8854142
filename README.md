# Spy: a Java agent that substitutes one class

Spy is a Java agent (`com.wilke.Spy`) that replaces the class
`com/wilke/Information` when the JVM loads it. Its static initialiser reads
the substitute class file `Information.class` from the root of the agent jar
into memory. `premain` then registers a `Spy` as a class-file transformer.
For every class load, `transform` returns the cached substitute bytes if the
internal class name is exactly `com/wilke/Information`, and `null` ("no
transformation") otherwise.

The model has four modules:

- `Java` (Java.dfy): the Java values the code handles. These are nullable
  references (`Option`), a call that either returns or throws (`Result`),
  `IOException` with its message and cause, and `ExceptionInInitializerError`.
- `Transformer` (Transformer.dfy): the constants and the per-load decision.
  A `Spy` is a value holding the cached image, because its only state is a
  `static final` field. `Spy.Transform` returns `Replace(bytes)` or
  `NoChange`, or throws `NullPointerException` when the JVM passes a null
  class name, since `className.equals(...)` is called on it.
- `SubstituteLoader` (SubstituteLoader.dfy): the static initialiser.
  - The resource stream is an `InputStream` object over a `Resource` value. A
    `Resource` lists the chunks that successive `read(buffer)` calls hand out
    (each at most 1024 bytes), how the stream ends (`-1` or an
    `IOException`), and whether `close()` throws.
  - `StaticInitialiser` keeps the source's `while (true)` loop over a real
    1024-byte `array<bv8>` and a `ByteArrayOutputStream`.
  - It is proved equal to the specification function `ClassInit`.
- `Agent` (Agent.dfy): the lifecycle.
  - `Instrumentation` stands in for the JVM's registry of transformers.
  - `SpyClass` is the initialised class. It has the image fixed at
    construction and an `Unregistered`/`Active` state.
  - `SpyClass` can only be constructed from a successful `ClassInit`, which
    encodes that `premain` runs only after initialisation has succeeded.
  - `Launch` sequences initialisation, then `premain`.

Three behaviours of the code are worth stating outright:

- Missing resource. When the resource is missing, `getResourceAsStream`
  returns null and the first `read` throws a `NullPointerException`. The
  `IOException` handler (Spy.java:42) does not catch it, so class
  initialisation fails with `ExceptionInInitializerError(NullPointerException)`.
  The hint message, which is about exactly this misconfiguration, is never
  shown.
- Failing `close()`. A `close()` that throws at the end of the
  try-with-resources block is caught by the same handler and produces the
  hint message. A read failure wins over a close failure, because the close
  failure is then only suppressed.
- Null class name. A null class name makes `transform` throw a
  `NullPointerException`.

## Model

| member | source | states |
|---|---|---|
| Transformer.Spy.Transform | Spy/src/com/wilke/Spy.java:74-85 | the result is Replace carrying bytes equal to the cached image exactly when the name equals "com/wilke/Information"; it is NoChange exactly for every other non-null name; a null name throws NullPointerException |
| Transformer.TransformIgnoresContext | Spy/src/com/wilke/Spy.java:75-85 | the decision depends only on the class name: loader, class being redefined, protection domain and original bytes can all change without effect |
| Transformer.TransformIsStateless | Spy/src/com/wilke/Spy.java:79-84 | two transformers over the same cached image, or the same one asked again, give the same decision with the same bytes for every event |
| Transformer.NearMissesAreNotReplaced | Spy/src/com/wilke/Spy.java:20-28 | the resource path "Information.class", the dotted name "com.wilke.Information" and "com/wilke/Information.class" are all left unchanged |
| Transformer.DottedNamesAreNotReplaced | Spy/src/com/wilke/Spy.java:24-28 | no name containing '.' is ever replaced, because matching is verbatim and the target uses '/' separators |
| SubstituteLoader.CaughtFault | Spy/src/com/wilke/Spy.java:33-44 | the handler sees no exception exactly when the stream ended with -1 and closed cleanly; a read failure is the one caught even when close also fails |
| SubstituteLoader.ClassInit | Spy/src/com/wilke/Spy.java:30-48 | initialisation succeeds exactly when the resource exists, ends with -1 and closes cleanly, and the image is then the concatenation of all chunks; a missing resource fails with a bare NullPointerException; every other failure wraps an IOException with the hint message and a cause |
| SubstituteLoader.StaticInitialiser | Spy/src/com/wilke/Spy.java:30-48 | the read loop over a 1024-byte buffer yields exactly ClassInit: the output stays equal to the concatenation of the chunks read so far until the first -1 |
| SubstituteLoader.ConcatPrefix | Spy/src/com/wilke/Spy.java:36-41 | chunks are appended in the order read: the bytes of the first i chunks followed by chunk i begin the whole output |
| SubstituteLoader.ConcatSplit | Spy/src/com/wilke/Spy.java:34-41 | splitting data into reads of any sizes from 1 to 1024 bytes, each read free to differ, and appending them back gives the data unchanged |
| SubstituteLoader.SplitCovers | Spy/src/com/wilke/Spy.java:36-41 | every sequence of non-empty reads of at most 1024 bytes is the split of its own bytes by its own read sizes, so the round trip covers every such stream |
| SubstituteLoader.LoadsWholeFile | Spy/src/com/wilke/Spy.java:30-41 | a class file delivered in reads of any sizes from 1 to 1024 bytes, varying from read to read, and closed cleanly becomes the substitute image byte for byte |
| SubstituteLoader.FaultCarriesHint | Spy/src/com/wilke/Spy.java:42-44 | a read or close IOException fails initialisation with ExceptionInInitializerError wrapping an IOException with the hint message whose cause is the original exception |
| SubstituteLoader.InputStream.Open | Spy/src/com/wilke/Spy.java:33 | opening the resource gives a stream at its first chunk, not closed |
| SubstituteLoader.InputStream.Read | Spy/src/com/wilke/Spy.java:37 | read stores the next chunk at the front of the buffer, leaves the rest of the buffer alone and returns the chunk's length; once the chunks are used up it returns -1 or throws, every time |
| SubstituteLoader.InputStream.Close | Spy/src/com/wilke/Spy.java:33 | the implicit close marks the stream closed and reports the resource's close failure, if any |
| SubstituteLoader.ByteArrayOutputStream.constructor | Spy/src/com/wilke/Spy.java:31 | the output buffer starts empty |
| SubstituteLoader.ByteArrayOutputStream.Write | Spy/src/com/wilke/Spy.java:40 | write(buffer, 0, result) appends exactly the first result bytes of the buffer and nothing else |
| SubstituteLoader.ByteArrayOutputStream.ToByteArray | Spy/src/com/wilke/Spy.java:46 | toByteArray returns the bytes written so far, in order |
| Agent.Instrumentation.AddTransformer | Spy/src/com/wilke/Spy.java:55 | registration appends the one transformer to the registry |
| Agent.SpyClass.constructor | Spy/src/com/wilke/Spy.java:30-48 | a usable class exists only after a successful initialisation; its image is that initialisation's result, and the hook starts Unregistered |
| Agent.SpyClass.Premain | Spy/src/com/wilke/Spy.java:54-56 | premain ignores its argument, registers exactly one new Spy over the cached image and leaves the hook Active |
| Agent.Launch | Spy/src/com/wilke/Spy.java:30-56 | a failed initialisation registers nothing and yields its error; a successful one yields an Active class whose image is the whole resource, with exactly one Spy over that image registered |
| Agent.ActiveAgentDecisions | Spy/src/com/wilke/Spy.java:74-85 | once initialisation succeeded, loading the target class yields exactly the resource's bytes and loading any other class yields NoChange |

## Left out

- The JVM's dispatch of load events to registered transformers, the context class loader and `getResourceAsStream`. These are host calls. The resource lookup is a parameter (`Option<Resource>`, with `None` for a null stream), and registration is the `Instrumentation` registry.
- `System.out.println` in `transform`. It is diagnostic output only.
- The commented-out `agentmain` dynamic-attach entry point. It is not compiled code.
- Concurrent calls of `transform` from loader threads. No code in the agent writes its fields after initialisation, so no interleaving of its own code can change a decision.
- The substitute image as a mutable `byte[]`. The model holds it as an immutable `seq<bv8>`, so it does not capture three things. `transform` hands every caller the same shared array, and the model cannot tell that array from an equal copy. A host that writes into the returned array would change the image for later loads, and the model cannot show that. Java arrays hold fewer than 2^31 bytes, so `ByteArrayOutputStream` fails with `OutOfMemoryError` on a larger resource, while the model's image has no size bound.
- The `finally` assignment of `substituteByteCode` while an exception propagates. A failed class initialisation makes the class unusable, so that value can never be observed.
- Agent.SpyClass.Premain: the JVM calls `premain` once per attach. The model does not forbid a second call. A second call would register another identical `Spy` and stay Active.
- Streams that break the `InputStream` contract are not modelled. Such a stream would return a negative count other than -1, or claim more bytes than the buffer holds. Every modelled chunk is 0 to 1024 bytes long.
