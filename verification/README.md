# json-schema-maven-plugin: a Dafny model of its class loader and its run

The plugin's `json-schema` goal finds every subtype of a configured base
class in the configured packages and writes one JSON Schema file per
subtype into an output directory. This project models the two pieces of the
plugin's own logic:

- **`SchemaClassLoader`** (module `ClassLoading`, file `class_loading.dfy`):
  a `URLClassLoader` whose URL list is built from the project's compile class
  path. Elements whose URL conversion fails are skipped. Its `findClass`
  keeps a name→class cache. A class is a Dafny object (`Java.Clazz`), so
  "the same class" means the same reference, as with `java.lang.Class`. The
  superclass search defines a new class from the first location holding the
  class file. The JVM refuses a second definition of a name by the same
  loader with a `LinkageError`, and the loader records the names it has
  defined for this. So the cache does not prevent a second class; it makes a
  repeated request for a name succeed with the first class instead of failing.
- **`JsonSchemaPlugin.execute`** (module `JsonSchema`, file
  `json_schema_plugin.dfy`): it runs the configuration checks in source
  order, then rewrites and creates the output directory. It saves the
  thread's context class loader, installs the `SchemaClassLoader`, resolves
  the base class and scans for subtypes. The per-type generate/write loop
  skips `IOException`s. Any other exception leaves the loop, and the
  `finally` puts the saved loader back. An `Exception` becomes
  `MojoExecutionException` with its message.

Outside the core, the model uses these pieces:

- `Java` (`java.dfy`): `Option`, bytes, URLs, the three kinds of `Throwable`
  the catch clauses tell apart, `Clazz` and the thread.
- `FileSystem` (`file_system.dfy`): a set of directories, a path→bytes map,
  and which creations and writes the platform refuses, as functions of the
  path. A refused write also says how many bytes reached its target before
  the failure, if the target was opened at all. `File.exists` holds for a
  path in either the directories or the files.

The libraries are parameters, in `JsonSchema.Collaborators`:

- `File.toURI().toURL()` is `toUrl`, which may fail.
- The contents of class-path locations are `hasClassFile`.
- Reflections' `getSubTypesOf` is `subTypesOf`. It returns the set's
  elements in its iteration order, or what it throws.
- Jackson's schema generation and pretty-printing together are
  `generateSchema`, which gives bytes or what it throws.

The thread's context class loader is the field of a `JavaThread` object
passed to `Execute`.

The per-type loop is a method, `WriteSchemas`. It is proved equal to a
recursive function, `WriteAll`, and the loop's properties are lemmas about
`WriteAll`.

Two points of behaviour the code fixes and the model keeps:

- `findClass` searches only the loader's own URLs; parent delegation belongs
  to `loadClass`. The base class is resolved with `findClass`, so it must be
  found on the project's compile class path. Otherwise the run fails with the
  class name as its message.
- The emptiness check on the package list comes before the null checks of
  the base class name, the session and the project.

## Model

| member | source | states |
|---|---|---|
| `ClassLoading.Convertible` | src/main/java/de/isc/maven/SchemaClassLoader.java:46-53 | The URL list has at most one entry per class-path element, and each entry is the URL of some element. |
| `ClassLoading.ConvertibleAppend` | src/main/java/de/isc/maven/SchemaClassLoader.java:46-53 | Converting a class path in two parts gives the two parts' URLs in order: elements are handled one at a time, in order. |
| `ClassLoading.ConvertibleSkipsMalformed` | src/main/java/de/isc/maven/SchemaClassLoader.java:47-52 | An element whose conversion fails contributes nothing. Every element before and after it is still added, in order. |
| `ClassLoading.ConvertibleAllWellFormed` | src/main/java/de/isc/maven/SchemaClassLoader.java:46-53 | When every element converts, the i-th URL is the URL of the i-th element, and there are as many URLs as elements. |
| `ClassLoading.Locate` | src/main/java/de/isc/maven/SchemaClassLoader.java:73 | The superclass search finds nothing exactly when no location holds the class. Otherwise it finds the first location in URL order that does. |
| `ClassLoading.SchemaClassLoader.constructor` | src/main/java/de/isc/maven/SchemaClassLoader.java:39-54 | The loader starts with no URLs and an empty cache. It keeps the given parent. Its URL list ends up exactly `Convertible(classpath)`. |
| `ClassLoading.SchemaClassLoader.AddUrl` | src/main/java/de/isc/maven/SchemaClassLoader.java:48 | `addURL` appends one location to the search path and keeps the cache invariant. |
| `ClassLoading.SchemaClassLoader.SuperFindClass` | src/main/java/de/isc/maven/SchemaClassLoader.java:73 | `super.findClass` throws `ClassNotFoundException(name)` when no location holds the class. When one does and the loader has already defined the name, it fails with the duplicate-definition `LinkageError` and defines nothing. Otherwise it defines a fresh class with that name from the first such location and records the name as defined. |
| `ClassLoading.SchemaClassLoader.FindClass` | src/main/java/de/isc/maven/SchemaClassLoader.java:62-76 | A found class always carries the requested name; on a hit, only the cache invariant supplies this. Because every defined name is cached, it never reaches the duplicate-definition `LinkageError`. On a hit it returns the cached class, with no search and no new class. On a successful miss it returns the fresh class the superclass defined, and the cache then maps the name to it. On a failed miss it throws and the cache is unchanged. In the model only the entry for `name` can be added, and existing entries are never changed. |
| `ClassLoading.FindClassTwice` | src/main/java/de/isc/maven/SchemaClassLoader.java:67-75 | Identity: two `findClass` calls for one name on one loader give the same result. A class found the first time is the cached one. |
| `ClassLoading.SuperFindClassTwice` | src/main/java/de/isc/maven/SchemaClassLoader.java:73 | Without the cache, a second `super.findClass` for a name found the first time fails with the duplicate-definition `LinkageError`. |
| `FileSystem.Join` | src/main/java/de/isc/maven/JsonSchemaPlugin.java:75 | `dir + separator + leaf` starts with `dir` and ends with `leaf`, so `leaf` can be recovered from the path. |
| `FileSystem.JoinInjective` | src/main/java/de/isc/maven/JsonSchemaPlugin.java:130 | In one directory, different leaf names give different paths. |
| `FileSystem.WriteError` | src/main/java/de/isc/maven/JsonSchemaPlugin.java:131-133 | A write whose directory does not exist as a directory always fails, before the target is opened. Inside a directory it fails exactly as the platform refuses it. |
| `FileSystem.Leftover` | src/main/java/de/isc/maven/JsonSchemaPlugin.java:131-133 | A write that failed before opening its target leaves nothing there. One that failed later leaves a prefix of the data, as many bytes as were written. |
| `FileSystem.FileSystem.CreateDirectories` | src/main/java/de/isc/maven/JsonSchemaPlugin.java:78 | `Files.createDirectories` either adds the directory or reports the platform's refusal and changes nothing. |
| `FileSystem.FileSystem.Write` | src/main/java/de/isc/maven/JsonSchemaPlugin.java:131-133 | `Files.write` with no options either creates or replaces exactly the one target file with the data, or fails. A failure before the target is opened changes nothing. A later failure leaves the target created or truncated, holding the bytes written so far. No other file changes. |
| `JsonSchema.SchemaFileName` | src/main/java/de/isc/maven/JsonSchemaPlugin.java:130 | The file name is the type name followed by `-schema.json`. |
| `JsonSchema.SchemaPath` | src/main/java/de/isc/maven/JsonSchemaPlugin.java:130 | `Paths.get(outputDirectory, name + "-schema.json")` is the output directory, the separator, then the schema file name, so it always ends in `-schema.json`. |
| `JsonSchema.SchemaFileNameInjective` | src/main/java/de/isc/maven/JsonSchemaPlugin.java:130 | Equal file names come from equal type names, so the file name is a one-to-one function of the type name. |
| `JsonSchema.SchemaPathInjective` | src/main/java/de/isc/maven/JsonSchemaPlugin.java:130 | In one output directory, two types with different names never share a schema file. |
| `JsonSchema.Escape` | src/main/java/de/isc/maven/JsonSchemaPlugin.java:142-143 | Any `Exception` leaving the try block becomes `MojoExecutionException` with the same message. A `java.lang.Error` passes through unwrapped. |
| `JsonSchema.Attempt` | src/main/java/de/isc/maven/JsonSchemaPlugin.java:128-137 | A type is written exactly when generation yields bytes and the write into the existing output directory succeeds. Its file is then its own `<name>-schema.json` holding exactly the generated bytes. Its file is left truncated exactly when generation yields bytes and the write fails after opening the target; the file then holds a prefix of those bytes. It escapes the loop exactly when generation throws something other than an `IOException`, and it carries that throwable. Every other case is a skip that touches no file: an `IOException` from generation, or a write that fails before opening the target. |
| `JsonSchema.WriteAll` | src/main/java/de/isc/maven/JsonSchemaPlugin.java:126-138 | The `subTypes.forEach` loop in iteration order. It only creates or replaces files, including files left truncated by failed writes, and never removes one. It aborts only with a non-`IOException` that some given type's attempt threw. |
| `JsonSchema.WriteAllAppend` | src/main/java/de/isc/maven/JsonSchemaPlugin.java:126-138 | The loop over `a + c` is the loop over `a`, then over `c` from the files `a` left, unless `a` threw. |
| `JsonSchema.WriteAllSkipsIOFailure` | src/main/java/de/isc/maven/JsonSchemaPlugin.java:135-137 | Take a type whose `IOException` touched no file: it came from generation, or from a write that failed before opening the target. That type is skipped, and the run over the others is exactly as if it were absent. |
| `JsonSchema.WriteAllAgreeExcept` | src/main/java/de/isc/maven/JsonSchemaPlugin.java:126-138 | The loop's control flow does not depend on file contents. Two runs from files that differ at most at one path end the same way, and their files still differ at most there. |
| `JsonSchema.WriteAllSkipsPartialWrite` | src/main/java/de/isc/maven/JsonSchemaPlugin.java:131-137 | Take a type whose write failed after opening its target. The loop still goes on past it and ends exactly as if the type were absent. The files differ from that run's only at the type's own schema path, which may be left created or truncated. |
| `JsonSchema.WriteAllStopsAtEscape` | src/main/java/de/isc/maven/JsonSchemaPlugin.java:126-138 | Any other exception ends the loop at that type with that exception. The files are those of the types before it, and the types after it are never processed. |
| `JsonSchema.WriteAllOnlySchemaFiles` | src/main/java/de/isc/maven/JsonSchemaPlugin.java:126-138 | The loop creates, changes or removes no file outside the schema paths of the types it is given. |
| `JsonSchema.WriteAllEachWritten` | src/main/java/de/isc/maven/JsonSchemaPlugin.java:128-134 | Take a type reached before any abort whose generation and write succeed. Afterwards its file `dir/<name>-schema.json` holds exactly its schema, replacing any earlier content. |
| `JsonSchema.WriteAllWithoutDirectory` | src/main/java/de/isc/maven/JsonSchemaPlugin.java:76-78 | Suppose the output path already exists as a regular file, so it was not created. Then every write fails and no file changes. |
| `JsonSchema.JsonSchemaPlugin.constructor` | src/main/java/de/isc/maven/JsonSchemaPlugin.java:45-64 | The plugin holds the injected parameters as given. |
| `JsonSchema.JsonSchemaPlugin.OutputPath` | src/main/java/de/isc/maven/JsonSchemaPlugin.java:75 | The rewritten output directory is the build output directory, the separator, then the configured directory. A null configured directory appears as the text "null". |
| `JsonSchema.JsonSchemaPlugin.MakeOutputDirectory` | src/main/java/de/isc/maven/JsonSchemaPlugin.java:73-81 | `outputDirectory` becomes `m_mavenOutputDirectory + separator + outputDirectory`, where null reads as "null". The directory is created only if nothing exists at that path. An existing path is never an error. A creation failure is reported and leaves the directories unchanged. |
| `JsonSchema.JsonSchemaPlugin.WriteSchemas` | src/main/java/de/isc/maven/JsonSchemaPlugin.java:126-138 | The loop leaves the files exactly as `WriteAll` gives them. It returns the exception that ended it, or nothing when it completed. |
| `JsonSchema.JsonSchemaPlugin.RunWithSchemaLoader` | src/main/java/de/isc/maven/JsonSchemaPlugin.java:108-138 | A class-path resolution failure throws before any loader exists, and the context loader stays as it was. Otherwise the new loader wraps the saved context loader, has URLs `Convertible(classpath)`, and is the thread's context loader afterwards. If the base class is not found, it throws with the class name and writes no file. If found, it is a fresh class named `baseClassName`, and in the model the cache holds only it. A scan failure writes no file. Otherwise the files are those of `WriteAll` over the scanned subtypes. |
| `JsonSchema.JsonSchemaPlugin.RunChecked` | src/main/java/de/isc/maven/JsonSchemaPlugin.java:105-144 | The context class loader after the block equals the one before, on every path. The output directory is rewritten, and created only when absent. A directory failure fails the run with its message and writes no file. Base class, class path and scan failures fail the run with no file written. Otherwise the run succeeds unless a type threw something other than an `IOException`, and the files are those of `WriteAll`. |
| `JsonSchema.JsonSchemaPlugin.Execute` | src/main/java/de/isc/maven/JsonSchemaPlugin.java:89-145 | A null package list fails with an unwrapped null-pointer failure, before anything else. An empty list returns normally. Then the base class name, session and project are null-checked in that order. A run stopped by any of these checks changes no directory, file, field or loader. Past the checks, the outcome is the try/catch block's, stated once in the predicate `TryBlockOutcome` that `RunChecked` also ensures. The thread's context class loader is always restored. |

## Left out

- Jackson's schema generation and serialisation: one abstract function from a class to bytes or a `Throwable`. The type-to-schema mapping and pretty-printing are not modelled.
- Reflections' scan: one abstract function of the package list and the base class. It does not see the installed context loader, and no order is assumed for the set it returns.
- `URLClassLoader` internals: parent delegation in `loadClass`, and the duplicate-URL suppression of `addURL`. That suppression does not change which location `Locate` finds. Also left out is what a location contains (`hasClassFile` is abstract).
- ClassLoading.SchemaClassLoader.SuperFindClass: of the errors `defineClass` raises, only the duplicate-definition `LinkageError` is modelled. Class-format and verification errors, and the `SecurityException` for a `java.*` name, are not: a location that holds the class file always yields a class.
- `File.toURI().toURL()`: modelled as a possibly failing function of the element. `MavenProject` is reduced to its compile class path, or the `DependencyResolutionRequiredException` it throws. That exception is checked before the loader is built, which the source's order makes equivalent.
- `Files.createDirectories` creating missing ancestors: only the output directory itself is added. Partial creation before a failure is not modelled.
- Path normalisation by `Paths.get`, and `InvalidPathException` for an unusable type name.
- `JsonSchema.WriteAllEachWritten` requires pairwise distinct type names. A `Set<Class<?>>` may hold two classes with one name from different loaders; the later one in iteration order then wins, and that case is not stated.
- `JsonSchema.JsonSchemaPlugin.constructor`: stands in for Maven's parameter injection. The session is reduced to whether it was injected.
- ClassLoading.SchemaClassLoader.FindClass: the model's frame lets only the entry for `name` be added. In the JVM, `defineClass` inside `super.findClass` links the new class. Linking resolves the class's superclass and interfaces through this loader's `loadClass`. When the parent cannot load them, that call re-enters the overridden `findClass`, which caches them too. The model does not capture this re-entry. Existing entries are still never changed, so identity is unaffected.
- JsonSchema.JsonSchemaPlugin.RunWithSchemaLoader: the contract says the cache holds only the base class once it is resolved, and states nothing about the cache after the scan. In the JVM the cache also holds the project supertypes cached by that re-entry. It also holds the subtypes the scan returns: Reflections loads the names it finds through the context class loader, which is the installed `SchemaClassLoader` (src/main/java/de/isc/maven/JsonSchemaPlugin.java:115, 123-125). The abstract scan does not go through the loader, so these are not modelled.
- Exception messages are strings. A null `getMessage()` is not modelled.
- Logging, and the thread safety of `Collections.synchronizedMap`: the model is sequential.
