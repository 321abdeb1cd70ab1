/**
 * SchemaClassLoader: a URLClassLoader over the project's compile class path
 * whose findClass remembers every class it has defined, so that a name is
 * defined at most once and always resolves to the same class.
 */
module ClassLoading {
  import opened Java

  /**
   * The URLs the constructor adds: every class-path element whose conversion
   * to a URL succeeds, in class-path order; an element whose conversion fails
   * (MalformedURLException) is left out.
   */
  function Convertible(elements: seq<string>, toUrl: string -> Option<Url>): (urls: seq<Url>)
    ensures |urls| <= |elements|
    ensures forall u :: u in urls ==> exists e :: e in elements && toUrl(e) == Some(u)
  {
    if elements == [] then []
    else
      var rest := Convertible(elements[1..], toUrl);
      assert forall e :: e in elements[1..] ==> e in elements;
      match toUrl(elements[0])
      case None => rest
      case Some(u) => [u] + rest
  }

  /** Converting a class path piecewise gives the same URLs as converting it whole. */
  lemma {:induction false} ConvertibleAppend(a: seq<string>, b: seq<string>, toUrl: string -> Option<Url>)
    ensures Convertible(a + b, toUrl) == Convertible(a, toUrl) + Convertible(b, toUrl)
  {
    if a == [] {
      assert a + b == b;
    } else {
      assert (a + b)[0] == a[0];
      assert (a + b)[1..] == a[1..] + b;
      ConvertibleAppend(a[1..], b, toUrl);
    }
  }

  /** A malformed element is skipped, and the elements around it are all still added. */
  lemma ConvertibleSkipsMalformed(before: seq<string>, bad: string, after: seq<string>, toUrl: string -> Option<Url>)
    requires toUrl(bad).None?
    ensures Convertible(before + [bad] + after, toUrl) == Convertible(before, toUrl) + Convertible(after, toUrl)
  {
    ConvertibleAppend(before + [bad], after, toUrl);
    ConvertibleAppend(before, [bad], toUrl);
    assert [bad][1..] == [];
  }

  /** When every element converts, the URL list is the elements' URLs, one for one and in order. */
  lemma {:induction false} ConvertibleAllWellFormed(elements: seq<string>, toUrl: string -> Option<Url>)
    requires forall e :: e in elements ==> toUrl(e).Some?
    ensures |Convertible(elements, toUrl)| == |elements|
    ensures forall i :: 0 <= i < |elements| ==> Convertible(elements, toUrl)[i] == toUrl(elements[i]).value
  {
    if elements != [] {
      assert forall e :: e in elements[1..] ==> e in elements;
      ConvertibleAllWellFormed(elements[1..], toUrl);
      forall i | 1 <= i < |elements|
        ensures Convertible(elements, toUrl)[i] == toUrl(elements[i]).value
      {
        assert elements[1..][i - 1] == elements[i];
      }
    }
  }

  /**
   * The search of URLClassLoader.findClass: the index of the first location,
   * in URL order, that holds the class file for name; None when no location
   * does (ClassNotFoundException).
   */
  function Locate(urls: seq<Url>, hasClassFile: (Url, string) -> bool, name: string): (k: Option<nat>)
    ensures k.None? <==> forall u :: u in urls ==> !hasClassFile(u, name)
    ensures k.Some? ==> k.value < |urls| && hasClassFile(urls[k.value], name)
    ensures k.Some? ==> forall j :: 0 <= j < k.value ==> !hasClassFile(urls[j], name)
  {
    if urls == [] then None
    else if hasClassFile(urls[0], name) then Some(0)
    else
      match Locate(urls[1..], hasClassFile, name)
      case None => None
      case Some(i) => Some(i + 1)
  }

  /**
   * The result of findClass: the class, the ClassNotFoundException carrying
   * the name, or the LinkageError ("attempted duplicate class definition")
   * that defineClass throws for a name this loader has already defined.
   */
  datatype Lookup = Found(c: Clazz) | ClassNotFound(name: string) | DuplicateDefinition(name: string)

  class SchemaClassLoader {
    /** The parent class loader given to the URLClassLoader constructor. */
    const parent: object?
    /** Which locations hold the class file for which name. */
    const hasClassFile: (Url, string) -> bool
    /** The URL search path of the URLClassLoader. */
    var urls: seq<Url>
    /** The cache of classes this loader has already defined, by name. */
    var classMap: map<string, Clazz>
    /** The names the JVM records as defined by this loader. */
    var defined: set<string>

    /**
     * Every class this loader defined is cached, under its own name, and was
     * defined from a location of this loader.
     */
    ghost predicate Valid()
      reads this
    {
      && classMap.Keys == defined
      && forall n :: n in classMap ==>
        classMap[n].name == n && classMap[n].origin in urls && hasClassFile(classMap[n].origin, n)
    }

    /**
     * Starts with no URLs and an empty cache, then adds the URL of each
     * class-path element in order, logging and skipping an element whose
     * conversion fails.
     */
    constructor (classpath: seq<string>, parent: object?, toUrl: string -> Option<Url>,
                 hasClassFile: (Url, string) -> bool)
      ensures Valid()
      ensures this.parent == parent && this.hasClassFile == hasClassFile
      ensures urls == Convertible(classpath, toUrl)
      ensures classMap == map[] && defined == {}
    {
      this.parent := parent;
      this.hasClassFile := hasClassFile;
      urls := [];
      classMap := map[];
      defined := {};
      new;
      var i := 0;
      while i < |classpath|
        invariant 0 <= i <= |classpath|
        invariant urls == Convertible(classpath[..i], toUrl)
        invariant classMap == map[] && defined == {}
      {
        assert classpath[..i + 1] == classpath[..i] + [classpath[i]];
        ConvertibleAppend(classpath[..i], [classpath[i]], toUrl);
        assert [classpath[i]][1..] == [];
        match toUrl(classpath[i]) {
          case Some(u) =>
            AddUrl(u);
          case None =>
            // MalformedURLException: logged, the element is ignored
        }
        i := i + 1;
      }
      assert classpath[..i] == classpath;
    }

    /** URLClassLoader.addURL: appends a location to the search path. */
    method AddUrl(u: Url)
      requires Valid()
      modifies this`urls
      ensures Valid()
      ensures urls == old(urls) + [u]
    {
      urls := urls + [u];
    }

    /**
     * URLClassLoader.findClass: searches the URLs (not the parent) and, when
     * a location holds the class file, defines a new class from it, which the
     * JVM refuses for a name this loader has already defined.
     */
    method SuperFindClass(name: string) returns (r: Lookup)
      modifies this`defined
      ensures match Locate(urls, hasClassFile, name)
              case None =>
                r == ClassNotFound(name) && defined == old(defined)
              case Some(k) =>
                if name in old(defined) then
                  r == DuplicateDefinition(name) && defined == old(defined)
                else
                  && r.Found? && fresh(r.c) && r.c.name == name && r.c.origin == urls[k]
                  && defined == old(defined) + {name}
    {
      match Locate(urls, hasClassFile, name)
      case None =>
        r := ClassNotFound(name);
      case Some(k) =>
        if name in defined {
          r := DuplicateDefinition(name);
        } else {
          var c := new Clazz(name, urls[k]);
          defined := defined + {name};
          r := Found(c);
        }
    }

    /**
     * The overridden findClass: a cached class is returned as it is, without
     * searching again; otherwise the superclass search runs and its class is
     * cached under exactly this name. A failed search leaves the cache as it was.
     */
    method FindClass(name: string) returns (r: Lookup)
      requires Valid()
      modifies this`classMap, this`defined
      ensures Valid()
      // the cache keeps the superclass from ever defining a name twice
      ensures !r.DuplicateDefinition?
      ensures r.Found? ==> r.c.name == name
      ensures name in old(classMap) ==> r == Found(old(classMap)[name]) && classMap == old(classMap)
      ensures name !in old(classMap) ==>
        match Locate(urls, hasClassFile, name)
        case None =>
          r == ClassNotFound(name) && classMap == old(classMap)
        case Some(k) =>
          && r.Found? && fresh(r.c) && r.c.name == name && r.c.origin == urls[k]
          && classMap == old(classMap)[name := r.c]
      // only the entry for name may change, and an existing entry never does
      ensures forall n :: n in old(classMap) ==> n in classMap && classMap[n] == old(classMap)[n]
      ensures forall n :: n in classMap && n != name ==> n in old(classMap)
    {
      if name in classMap {
        return Found(classMap[name]);
      }
      r := SuperFindClass(name);
      if r.Found? {
        classMap := classMap[name := r.c];
      }
    }
  }

  /**
   * Identity: two findClass calls for the same name on one loader give the
   * same answer, and once it is a class, that class is what the cache holds.
   */
  method FindClassTwice(loader: SchemaClassLoader, name: string) returns (first: Lookup, second: Lookup)
    requires loader.Valid()
    modifies loader`classMap, loader`defined
    ensures loader.Valid()
    ensures first == second
    ensures first.Found? ==> name in loader.classMap && loader.classMap[name] == first.c
  {
    first := loader.FindClass(name);
    second := loader.FindClass(name);
  }

  /**
   * What the cache prevents: asking the superclass twice for a name it can
   * find defines the class the first time and fails with LinkageError the
   * second, instead of returning the first class again.
   */
  method SuperFindClassTwice(loader: SchemaClassLoader, name: string) returns (first: Lookup, second: Lookup)
    modifies loader`defined
    ensures first.Found? ==> second == DuplicateDefinition(name)
  {
    first := loader.SuperFindClass(name);
    second := loader.SuperFindClass(name);
  }
}
