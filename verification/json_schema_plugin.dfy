/**
 * JsonSchemaPlugin: the json-schema goal. It checks its configuration,
 * prepares the output directory, installs a SchemaClassLoader as the
 * thread's context class loader for the duration of the run, resolves the
 * base class, and writes one <name>-schema.json file per subtype found.
 */
module JsonSchema {
  import opened Java
  import opened ClassLoading
  import opened FileSystem

  const SchemaSuffix: string := "-schema.json"

  /** The messages of the Objects.requireNonNull checks. */
  const NeedPackages: string := "Need a package to scan"
  const NeedBaseClass: string := "Need a baseClassName"
  const NeedSession: string := "Maven session not injected"
  const NeedProject: string := "Maven project not injected"

  /** The name of the file written for a type: the type's name followed by "-schema.json". */
  function SchemaFileName(typeName: string): (f: string)
    ensures |f| == |typeName| + |SchemaSuffix|
    ensures f[..|typeName|] == typeName && f[|typeName|..] == SchemaSuffix
  {
    typeName + SchemaSuffix
  }

  /** Distinct type names give distinct file names: the file name determines the type name. */
  lemma SchemaFileNameInjective(a: string, b: string)
    requires SchemaFileName(a) == SchemaFileName(b)
    ensures a == b
  {
  }

  /** The path of the schema file for a type name in the output directory. */
  function SchemaPath(dir: Path, typeName: string): (p: Path)
    ensures |p| == |dir| + |Separator| + |typeName| + |SchemaSuffix|
    ensures p[..|dir|] == dir && p[|dir| + |Separator|..] == SchemaFileName(typeName)
    ensures p[|p| - |SchemaSuffix|..] == SchemaSuffix
  {
    Join(dir, SchemaFileName(typeName))
  }

  /** Within one output directory, each type name has its own schema file. */
  lemma SchemaPathInjective(dir: Path, a: string, b: string)
    ensures SchemaPath(dir, a) == SchemaPath(dir, b) ==> a == b
  {
    if SchemaPath(dir, a) == SchemaPath(dir, b) {
      JoinInjective(dir, SchemaFileName(a), SchemaFileName(b));
      SchemaFileNameInjective(a, b);
    }
  }

  /** What MavenProject.getCompileClasspathElements gives: the elements, or DependencyResolutionRequiredException. */
  datatype Classpath = Resolved(elements: seq<string>) | ResolutionRequired(message: string)

  datatype MavenProject = MavenProject(compileClasspath: Classpath)

  /** JsonSchemaGenerator.generateSchema followed by pretty-printing to UTF-8 bytes. */
  datatype Generated = Schema(json: seq<byte>) | GenerationThrew(thrown: Thrown)

  /** new Reflections(packages).getSubTypesOf(base): the subtypes in the set's iteration order. */
  datatype Scanned = SubTypes(types: seq<Clazz>) | ScanThrew(thrown: Thrown)

  /** The libraries the plugin calls into, as fixed functions. */
  datatype Collaborators = Collaborators(
    toUrl: string -> Option<Url>,
    hasClassFile: (Url, string) -> bool,
    subTypesOf: (seq<string>, Clazz) -> Scanned,
    generateSchema: Clazz -> Generated)

  /** How execute ends. */
  datatype Outcome =
    | Returned
    | NullPointer(message: string)           // from Objects.requireNonNull, not wrapped
    | MojoExecutionFailure(message: string)  // MojoExecutionException(x.getMessage())
    | ErrorEscaped(message: string)          // a java.lang.Error passes catch(Exception)

  /** What leaves the outer try block when t is thrown inside it. */
  function Escape(t: Thrown): (r: Outcome)
    ensures t.JavaError? <==> r.ErrorEscaped?
    ensures !t.JavaError? <==> r.MojoExecutionFailure?
    ensures r.message == t.message
  {
    if t.JavaError? then ErrorEscaped(t.message) else MojoExecutionFailure(t.message)
  }

  /** What the per-type loop works with: the output directory, the existing directories, and the libraries. */
  datatype Batch = Batch(dir: Path, dirs: set<Path>, generate: Clazz -> Generated, writeFailure: Path -> Option<WriteFailure>)

  /** What becomes of one subtype in the loop. */
  datatype TypeOutcome =
    | Written(path: Path, json: seq<byte>)                  // its schema file now holds json
    | Truncated(path: Path, left: seq<byte>, message: string) // the write failed after opening: logged
    | Skipped(message: string)                              // an IOException that touched no file, logged
    | Escaped(thrown: Thrown)                               // anything else: it leaves the loop

  function Attempt(b: Batch, typ: Clazz): (o: TypeOutcome)
    ensures (o.Written? || o.Truncated?) ==> o.path == SchemaPath(b.dir, typ.name) && b.dir in b.dirs
    ensures o.Written? <==>
      b.generate(typ).Schema? && WriteError(b.dirs, b.writeFailure, b.dir, SchemaFileName(typ.name)).None?
    ensures o.Written? ==> o.json == b.generate(typ).json
    ensures o.Truncated? <==>
      && b.generate(typ).Schema?
      && var err := WriteError(b.dirs, b.writeFailure, b.dir, SchemaFileName(typ.name));
         err.Some? && err.value.written.Some?
    ensures o.Truncated? ==> o.left <= b.generate(typ).json
    ensures o.Escaped? <==> b.generate(typ).GenerationThrew? && !b.generate(typ).thrown.IOException?
    ensures o.Escaped? ==> o.thrown == b.generate(typ).thrown
  {
    match b.generate(typ)
    case Schema(json) =>
      (match WriteError(b.dirs, b.writeFailure, b.dir, SchemaFileName(typ.name))
       case None => Written(SchemaPath(b.dir, typ.name), json)
       case Some(f) =>
         match Leftover(json, f)
         case None => Skipped(f.message)
         case Some(left) => Truncated(SchemaPath(b.dir, typ.name), left, f.message))
    case GenerationThrew(t) =>
      if t.IOException? then Skipped(t.message) else Escaped(t)
  }

  /** The files after the loop, and the exception that ended it early, if any. */
  datatype LoopResult = Completed(files: map<Path, seq<byte>>) | Aborted(files: map<Path, seq<byte>>, cause: Thrown)

  /** The subTypes.forEach loop, over the types in iteration order, starting from files. */
  function WriteAll(b: Batch, types: seq<Clazz>, files: map<Path, seq<byte>>): (r: LoopResult)
    // the loop only creates or replaces files, and only a non-IOException aborts it
    ensures files.Keys <= r.files.Keys
    ensures r.Aborted? ==> !r.cause.IOException? && exists t :: t in types && Attempt(b, t) == Escaped(r.cause)
    decreases |types|
  {
    if types == [] then Completed(files)
    else
      match Attempt(b, types[0])
      case Written(p, json) => WriteAll(b, types[1..], files[p := json])
      case Truncated(p, left, _) => WriteAll(b, types[1..], files[p := left])
      case Skipped(_) => WriteAll(b, types[1..], files)
      case Escaped(t) => Aborted(files, t)
  }

  /** Running the loop over a + c is running it over a, then (unless a aborted) over c. */
  lemma {:induction false} WriteAllAppend(b: Batch, a: seq<Clazz>, c: seq<Clazz>, files: map<Path, seq<byte>>)
    ensures WriteAll(b, a + c, files) ==
      match WriteAll(b, a, files)
      case Completed(g) => WriteAll(b, c, g)
      case Aborted(g, t) => Aborted(g, t)
  {
    if a == [] {
      assert a + c == c;
    } else {
      assert (a + c)[0] == a[0];
      assert (a + c)[1..] == a[1..] + c;
      match Attempt(b, a[0])
      case Written(p, json) => WriteAllAppend(b, a[1..], c, files[p := json]);
      case Truncated(p, left, _) => WriteAllAppend(b, a[1..], c, files[p := left]);
      case Skipped(_) => WriteAllAppend(b, a[1..], c, files);
      case Escaped(_) =>
    }
  }

  /**
   * A type whose IOException touched no file (generation failed, or the write
   * failed before opening the target) is skipped: the run is as if it were absent.
   */
  lemma WriteAllSkipsIOFailure(b: Batch, before: seq<Clazz>, typ: Clazz, after: seq<Clazz>, files: map<Path, seq<byte>>)
    requires Attempt(b, typ).Skipped?
    ensures WriteAll(b, before + [typ] + after, files) == WriteAll(b, before + after, files)
  {
    WriteAllAppend(b, before + [typ], after, files);
    WriteAllAppend(b, before, [typ], files);
    WriteAllAppend(b, before, after, files);
    match WriteAll(b, before, files)
    case Completed(g) =>
      assert [typ][1..] == [];
      assert WriteAll(b, [typ], g) == Completed(g);
    case Aborted(_, _) =>
  }

  /** Two file maps that agree on every path but p. */
  ghost predicate AgreeExcept(f: map<Path, seq<byte>>, g: map<Path, seq<byte>>, p: Path)
  {
    forall q :: q != p ==> (q in f <==> q in g) && (q in f ==> f[q] == g[q])
  }

  /**
   * Starting from files that differ at most at p, the loop ends the same way
   * and its files still differ at most at p.
   */
  lemma {:induction false} WriteAllAgreeExcept(b: Batch, types: seq<Clazz>,
                                               f: map<Path, seq<byte>>, g: map<Path, seq<byte>>, p: Path)
    requires AgreeExcept(f, g, p)
    ensures WriteAll(b, types, f).Completed? <==> WriteAll(b, types, g).Completed?
    ensures WriteAll(b, types, f).Aborted? ==> WriteAll(b, types, f).cause == WriteAll(b, types, g).cause
    ensures AgreeExcept(WriteAll(b, types, f).files, WriteAll(b, types, g).files, p)
  {
    if types != [] {
      match Attempt(b, types[0])
      case Written(q, json) => WriteAllAgreeExcept(b, types[1..], f[q := json], g[q := json], p);
      case Truncated(q, left, _) => WriteAllAgreeExcept(b, types[1..], f[q := left], g[q := left], p);
      case Skipped(_) => WriteAllAgreeExcept(b, types[1..], f, g, p);
      case Escaped(_) =>
    }
  }

  /**
   * A type whose write failed after opening its target is skipped too, but
   * leaves that file created or truncated: the run ends as if the type were
   * absent, and its files differ from that run's only at the type's own
   * schema path.
   */
  lemma WriteAllSkipsPartialWrite(b: Batch, before: seq<Clazz>, typ: Clazz, after: seq<Clazz>,
                                  files: map<Path, seq<byte>>)
    requires Attempt(b, typ).Truncated?
    ensures var with, without := WriteAll(b, before + [typ] + after, files), WriteAll(b, before + after, files);
            && (with.Completed? <==> without.Completed?)
            && (with.Aborted? ==> with.cause == without.cause)
            && AgreeExcept(with.files, without.files, SchemaPath(b.dir, typ.name))
  {
    WriteAllAppend(b, before + [typ], after, files);
    WriteAllAppend(b, before, [typ], files);
    WriteAllAppend(b, before, after, files);
    match WriteAll(b, before, files)
    case Completed(g) =>
      var o := Attempt(b, typ);
      assert [typ][1..] == [];
      assert WriteAll(b, [typ], g) == Completed(g[o.path := o.left]);
      WriteAllAgreeExcept(b, after, g[o.path := o.left], g, o.path);
    case Aborted(_, _) =>
  }

  /** Any other exception ends the loop: the types after it are not processed. */
  lemma WriteAllStopsAtEscape(b: Batch, before: seq<Clazz>, typ: Clazz, after: seq<Clazz>, files: map<Path, seq<byte>>)
    requires Attempt(b, typ).Escaped?
    requires WriteAll(b, before, files).Completed?
    ensures WriteAll(b, before + [typ] + after, files) ==
            Aborted(WriteAll(b, before, files).files, Attempt(b, typ).thrown)
  {
    WriteAllAppend(b, before + [typ], after, files);
    WriteAllAppend(b, before, [typ], files);
  }

  /** The schema paths of a sequence of types. */
  ghost function SchemaPaths(dir: Path, types: seq<Clazz>): set<Path>
  {
    set t | t in types :: SchemaPath(dir, t.name)
  }

  /** The loop touches no file but the schema files of the types it was given. */
  lemma {:induction false} WriteAllOnlySchemaFiles(b: Batch, types: seq<Clazz>, files: map<Path, seq<byte>>, p: Path)
    requires p !in SchemaPaths(b.dir, types)
    ensures p in WriteAll(b, types, files).files <==> p in files
    ensures p in files ==> WriteAll(b, types, files).files[p] == files[p]
  {
    if types != [] {
      assert SchemaPaths(b.dir, types[1..]) <= SchemaPaths(b.dir, types);
      assert SchemaPath(b.dir, types[0].name) in SchemaPaths(b.dir, types);
      match Attempt(b, types[0])
      case Written(q, json) => WriteAllOnlySchemaFiles(b, types[1..], files[q := json], p);
      case Truncated(q, left, _) => WriteAllOnlySchemaFiles(b, types[1..], files[q := left], p);
      case Skipped(_) => WriteAllOnlySchemaFiles(b, types[1..], files, p);
      case Escaped(_) =>
    }
  }

  /** The type names of a sequence of types are pairwise distinct. */
  ghost predicate DistinctNames(types: seq<Clazz>)
  {
    forall i, j :: 0 <= i < j < |types| ==> types[i].name != types[j].name
  }

  /**
   * Every type processed before the loop ends whose generation and write
   * succeed leaves exactly its own schema in its own file.
   */
  lemma {:induction false} WriteAllEachWritten(b: Batch, types: seq<Clazz>, files: map<Path, seq<byte>>, i: nat)
    requires DistinctNames(types)
    requires i < |types| && Attempt(b, types[i]).Written?
    requires WriteAll(b, types[..i], files).Completed?
    ensures var o := Attempt(b, types[i]);
            o.path in WriteAll(b, types, files).files && WriteAll(b, types, files).files[o.path] == o.json
  {
    var o := Attempt(b, types[i]);
    if i == 0 {
      var rest := types[1..];
      forall t | t in rest ensures SchemaPath(b.dir, t.name) != o.path {
        var j :| 0 <= j < |rest| && rest[j] == t;
        assert types[j + 1] == t;
        SchemaPathInjective(b.dir, t.name, types[0].name);
      }
      WriteAllOnlySchemaFiles(b, rest, files[o.path := o.json], o.path);
    } else {
      assert types[..i] == [types[0]] + types[1..][..i - 1];
      WriteAllAppend(b, [types[0]], types[1..][..i - 1], files);
      assert [types[0]][1..] == [];
      var rest := types[1..];
      assert DistinctNames(rest) by {
        forall k, l | 0 <= k < l < |rest| ensures rest[k].name != rest[l].name {
          assert rest[k] == types[k + 1] && rest[l] == types[l + 1];
        }
      }
      match Attempt(b, types[0])
      case Written(q, json) => WriteAllEachWritten(b, rest, files[q := json], i - 1);
      case Truncated(q, left, _) => WriteAllEachWritten(b, rest, files[q := left], i - 1);
      case Skipped(_) => WriteAllEachWritten(b, rest, files, i - 1);
      case Escaped(_) =>
    }
  }

  /** When the output directory is not a directory, every write fails and no file is created or changed. */
  lemma {:induction false} WriteAllWithoutDirectory(b: Batch, types: seq<Clazz>, files: map<Path, seq<byte>>)
    requires b.dir !in b.dirs
    ensures WriteAll(b, types, files).files == files
  {
    if types != [] {
      WriteAllWithoutDirectory(b, types[1..], files);
    }
  }

  class JsonSchemaPlugin {
    var packagesToScan: Option<seq<string>>
    var baseClassName: Option<string>
    var outputDirectory: Option<string>
    var sessionInjected: bool
    var project: Option<MavenProject>
    var mavenOutputDirectory: Option<string>

    /** The plugin as Maven leaves it after injecting its parameters. */
    constructor (packagesToScan: Option<seq<string>>, baseClassName: Option<string>,
                 outputDirectory: Option<string>, sessionInjected: bool,
                 project: Option<MavenProject>, mavenOutputDirectory: Option<string>)
      ensures this.packagesToScan == packagesToScan && this.baseClassName == baseClassName
      ensures this.outputDirectory == outputDirectory && this.sessionInjected == sessionInjected
      ensures this.project == project && this.mavenOutputDirectory == mavenOutputDirectory
    {
      this.packagesToScan := packagesToScan;
      this.baseClassName := baseClassName;
      this.outputDirectory := outputDirectory;
      this.sessionInjected := sessionInjected;
      this.project := project;
      this.mavenOutputDirectory := mavenOutputDirectory;
    }

    /** The configuration passes every check that execute makes before the try block. */
    predicate Configured()
      reads this
    {
      && packagesToScan.Some? && packagesToScan.value != []
      && baseClassName.Some? && sessionInjected && project.Some?
    }

    /** The output directory as makeOutputDirectory rewrites it. */
    function OutputPath(): (p: Path)
      reads this
      // the build output directory, the separator, then the configured directory or "null"
      ensures var root := StringValueOf(mavenOutputDirectory);
        && |p| == |root| + |Separator| + |StringValueOf(outputDirectory)|
        && p[..|root|] == root
        && p[|root|..|root| + |Separator|] == Separator
        && p[|root| + |Separator|..] == if outputDirectory.None? then "null" else outputDirectory.value
    {
      Join(StringValueOf(mavenOutputDirectory), StringValueOf(outputDirectory))
    }

    /**
     * makeOutputDirectory: prefixes outputDirectory with the build output
     * directory, then creates the directory only if nothing exists at that
     * path, so an existing one is never an error.
     */
    method MakeOutputDirectory(fs: FileSystem) returns (err: Option<string>)
      modifies this`outputDirectory, fs`dirs
      ensures outputDirectory == Some(old(OutputPath()))
      ensures var dir := old(OutputPath());
              old(fs.Exists(dir)) ==> err.None? && fs.dirs == old(fs.dirs)
      ensures var dir := old(OutputPath());
              !old(fs.Exists(dir)) ==>
                && err == fs.mkdirFailure(dir)
                && fs.dirs == if err.None? then old(fs.dirs) + {dir} else old(fs.dirs)
    {
      outputDirectory := Some(OutputPath());
      var dir := outputDirectory.value;
      err := None;
      if !fs.Exists(dir) {
        err := fs.CreateDirectories(dir);
      }
    }

    /**
     * The per-type loop: generate and write the schema of each type in turn;
     * an IOException is logged and the next type follows, anything else ends
     * the loop and is returned.
     */
    method WriteSchemas(fs: FileSystem, dir: Path, types: seq<Clazz>, generate: Clazz -> Generated)
      returns (escaped: Option<Thrown>)
      modifies fs`files
      ensures var res := WriteAll(Batch(dir, fs.dirs, generate, fs.writeFailure), types, old(fs.files));
              && fs.files == res.files
              && (escaped.None? <==> res.Completed?)
              && (escaped.Some? ==> escaped.value == res.cause)
    {
      ghost var b := Batch(dir, fs.dirs, generate, fs.writeFailure);
      var i := 0;
      while i < |types|
        invariant 0 <= i <= |types|
        invariant WriteAll(b, types, old(fs.files)) == WriteAll(b, types[i..], fs.files)
      {
        assert types[i..][0] == types[i] && types[i..][1..] == types[i + 1..];
        var typ := types[i];
        match generate(typ) {
          case Schema(json) =>
            var err := fs.Write(dir, SchemaFileName(typ.name), json);
            // an IOException from the write is logged; the loop goes on
          case GenerationThrew(t) =>
            if !t.IOException? {
              return Some(t);
            }
            // an IOException from generation is logged; the loop goes on
        }
        i := i + 1;
      }
      assert types[i..] == [];
      escaped := None;
    }

    /**
     * The inner try block of execute, entered with the thread's context class
     * loader saved in ldr: build the SchemaClassLoader over the compile class
     * path with ldr as parent, install it, resolve the base class through it,
     * scan, and write the schemas. Returns what escapes the block, if anything.
     */
    method RunWithSchemaLoader(thread: JavaThread, ldr: object?, fs: FileSystem, env: Collaborators)
      returns (escaped: Option<Thrown>, ghost loader: SchemaClassLoader?, ghost base: Clazz?)
      requires Configured() && outputDirectory.Some?
      modifies thread, fs`files
      // the SchemaClassLoader is the thread's context loader once it exists
      ensures project.value.compileClasspath.Resolved? ==> thread.contextClassLoader == loader
      ensures project.value.compileClasspath.ResolutionRequired? ==>
        thread.contextClassLoader == old(thread.contextClassLoader)
      ensures match project.value.compileClasspath
        case ResolutionRequired(m) =>
          escaped == Some(OtherException(m)) && fs.files == old(fs.files) && loader == null && base == null
        case Resolved(elements) =>
          && loader != null && fresh(loader) && loader.parent == ldr
          && loader.urls == Convertible(elements, env.toUrl)
          && match Locate(loader.urls, env.hasClassFile, baseClassName.value)
             case None =>
               escaped == Some(OtherException(baseClassName.value)) && fs.files == old(fs.files) && base == null
             case Some(k) =>
               && base != null && fresh(base) && base.name == baseClassName.value && base.origin == loader.urls[k]
               && loader.classMap == map[baseClassName.value := base]
               && match env.subTypesOf(packagesToScan.value, base)
                  case ScanThrew(t) =>
                    escaped == Some(t) && fs.files == old(fs.files)
                  case SubTypes(types) =>
                    var res := WriteAll(Batch(outputDirectory.value, fs.dirs, env.generateSchema, fs.writeFailure),
                                        types, old(fs.files));
                    && fs.files == res.files
                    && escaped == if res.Completed? then None else Some(res.cause)
    {
      loader, base := null, null;
      match project.value.compileClasspath
      case ResolutionRequired(m) =>
        return Some(OtherException(m)), loader, base;
      case Resolved(elements) =>
        var schemaClassLoader := new SchemaClassLoader(elements, ldr, env.toUrl, env.hasClassFile);
        loader := schemaClassLoader;
        thread.contextClassLoader := schemaClassLoader;
        var found := schemaClassLoader.FindClass(baseClassName.value);
        if found.ClassNotFound? {
          return Some(OtherException(found.name)), loader, base;
        }
        base := found.c;
        match env.subTypesOf(packagesToScan.value, found.c)
        case ScanThrew(t) =>
          return Some(t), loader, base;
        case SubTypes(types) =>
          escaped := WriteSchemas(fs, outputDirectory.value, types, env.generateSchema);
    }

    /**
     * What the try/catch(Exception) block of execute leaves behind, given the
     * rewritten output directory dir, whether anything existed there before,
     * and the directories and files before. The directory is created only when
     * nothing existed; a creation failure, an unresolved class path, a base
     * class that cannot be found or a failing scan end the run without any
     * file written; otherwise the files are those of the per-type loop, and
     * the run fails only if a type threw something other than an IOException.
     */
    ghost predicate TryBlockOutcome(fs: FileSystem, env: Collaborators, dir: Path, existed: bool,
                                    dirs0: set<Path>, files0: map<Path, seq<byte>>, r: Outcome, base: Clazz?)
      reads this, fs
      requires Configured()
    {
      var mkdir := if existed then None else fs.mkdirFailure(dir);
      && fs.dirs == (if existed || mkdir.Some? then dirs0 else dirs0 + {dir})
      && (mkdir.Some? ==> r == MojoExecutionFailure(mkdir.value) && fs.files == files0 && base == null)
      && (mkdir.None? ==>
        match project.value.compileClasspath
        case ResolutionRequired(m) =>
          r == MojoExecutionFailure(m) && fs.files == files0 && base == null
        case Resolved(elements) =>
          match Locate(Convertible(elements, env.toUrl), env.hasClassFile, baseClassName.value)
          case None =>
            r == MojoExecutionFailure(baseClassName.value) && fs.files == files0 && base == null
          case Some(k) =>
            && base != null && base.name == baseClassName.value
            && base.origin == Convertible(elements, env.toUrl)[k]
            && match env.subTypesOf(packagesToScan.value, base)
               case ScanThrew(t) =>
                 r == Escape(t) && fs.files == files0
               case SubTypes(types) =>
                 var res := WriteAll(Batch(dir, fs.dirs, env.generateSchema, fs.writeFailure), types, files0);
                 && fs.files == res.files
                 && r == if res.Completed? then Returned else Escape(res.cause))
    }

    /**
     * The try/catch(Exception) block of execute, reached once the checks
     * pass: the output directory, then the run with the SchemaClassLoader
     * installed, after which (finally) the saved context class loader is put
     * back. An Exception leaving the block becomes MojoExecutionException
     * with its message; a java.lang.Error passes through.
     */
    method RunChecked(thread: JavaThread, fs: FileSystem, env: Collaborators)
      returns (r: Outcome, ghost base: Clazz?)
      requires Configured()
      modifies this`outputDirectory, thread, fs
      ensures thread.contextClassLoader == old(thread.contextClassLoader)
      ensures outputDirectory == Some(old(OutputPath()))
      ensures TryBlockOutcome(fs, env, old(OutputPath()), old(fs.Exists(OutputPath())),
                              old(fs.dirs), old(fs.files), r, base)
      ensures base != null ==> fresh(base)
    {
      base := null;
      var dirErr := MakeOutputDirectory(fs);
      if dirErr.Some? {
        return MojoExecutionFailure(dirErr.value), base;
      }
      var ldr := thread.contextClassLoader;
      var escaped;
      ghost var loader;
      escaped, loader, base := RunWithSchemaLoader(thread, ldr, fs, env);
      // finally
      thread.contextClassLoader := ldr;
      r := match escaped
        case None => Returned
        case Some(t) => Escape(t);
    }

    /**
     * execute: the configuration checks in source order (a null package list
     * fails before anything else, an empty one ends the run at once, and
     * neither is wrapped), then the try/catch block of RunChecked. The ambient
     * context class loader is the same afterwards on every path.
     */
    method Execute(thread: JavaThread, fs: FileSystem, env: Collaborators)
      returns (r: Outcome, ghost base: Clazz?)
      modifies this`outputDirectory, thread, fs
      ensures thread.contextClassLoader == old(thread.contextClassLoader)
      ensures packagesToScan.None? ==> r == NullPointer(NeedPackages)
      ensures packagesToScan == Some([]) ==> r == Returned
      ensures packagesToScan.Some? && packagesToScan.value != [] ==>
        && (baseClassName.None? ==> r == NullPointer(NeedBaseClass))
        && (baseClassName.Some? && !sessionInjected ==> r == NullPointer(NeedSession))
        && (baseClassName.Some? && sessionInjected && project.None? ==> r == NullPointer(NeedProject))
      // a run that fails a check changes nothing
      ensures !Configured() ==> outputDirectory == old(outputDirectory) && unchanged(fs) && base == null
      // a run that passes them is the try/catch block
      ensures Configured() ==> outputDirectory == Some(old(OutputPath()))
      ensures Configured() ==>
        TryBlockOutcome(fs, env, old(OutputPath()), old(fs.Exists(OutputPath())),
                        old(fs.dirs), old(fs.files), r, base)
      ensures base != null ==> fresh(base)
    {
      base := null;
      if packagesToScan.None? {
        return NullPointer(NeedPackages), base;
      }
      if packagesToScan.value == [] {
        // no packages to scan, nothing to do
        return Returned, base;
      }
      if baseClassName.None? {
        return NullPointer(NeedBaseClass), base;
      }
      if !sessionInjected {
        return NullPointer(NeedSession), base;
      }
      if project.None? {
        return NullPointer(NeedProject), base;
      }
      r, base := RunChecked(thread, fs, env);
    }
  }
}
