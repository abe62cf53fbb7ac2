/** The plugin mount table built at startup: every file of the `plugins`
    configuration list is mounted under `/plugins/<name>`, where the name is
    Node's `path.parse(file).name` (POSIX flavour). */
module Plugins {
  import opened JsValues
  import opened Strings

  /** `s` without the run of '/' at its end. */
  function TrimTrailingSlashes(s: string): string
  {
    if s != [] && s[|s| - 1] == '/' then TrimTrailingSlashes(s[..|s| - 1]) else s
  }

  /** `path.parse(file).base`: the last component, trailing '/'s ignored. */
  function BaseName(file: string): string
  {
    var t := TrimTrailingSlashes(file);
    match LastIndexOf(t, '/')
    case None => t
    case Some(i) => t[i + 1..]
  }

  /** `base` without its last extension: from its last '.' on, unless that
      dot is its first character (".env") or the base is "..". */
  function StripExtension(base: string): string
  {
    match LastIndexOf(base, '.')
    case None => base
    case Some(d) => if d == 0 || base == ".." then base else base[..d]
  }

  /** `path.parse(file).name`: the base name without its last extension.
      Node reports "." for the path "/..". */
  function Name(file: string): string
  {
    var b := BaseName(file);
    if b == ".." && TrimTrailingSlashes(file) == "/.." then "." else StripExtension(b)
  }

  /** A plugin name never holds '/'. */
  lemma NameHasNoSlash(file: string)
    ensures '/' !in Name(file)
  {
    var t := TrimTrailingSlashes(file);
    var b := BaseName(file);
    match LastIndexOf(t, '/')
    case None =>
    case Some(i) =>
      assert forall k :: 0 <= k < |b| ==> b[k] == t[i + 1 + k];
    var n := StripExtension(b);
    assert forall k :: 0 <= k < |n| ==> n[k] == b[k];
  }

  /** Behind a directory part that is empty or ends in '/', a non-empty
      component without '/' is the base name. */
  lemma BaseNameAfterDir(dir: string, base: string)
    requires dir == [] || dir[|dir| - 1] == '/'
    requires base != [] && '/' !in base
    ensures TrimTrailingSlashes(dir + base) == dir + base
    ensures BaseName(dir + base) == base
  {
    var f := dir + base;
    assert f[|f| - 1] == base[|base| - 1];
    if dir != [] {
      forall k | |dir| - 1 < k < |f|
        ensures f[k] != '/'
      {
        assert f[k] == base[k - |dir|];
      }
      LastIndexOfAt(f, '/', |dir| - 1);
      assert f[|dir|..] == base;
    } else {
      assert f == base;
    }
  }

  /** The stem of `stem + "." + ext`, when the extension holds no '.'. */
  lemma StemOfBase(stem: string, ext: string)
    requires stem != [] && '.' !in ext
    requires stem != "." || ext != []
    ensures var base := stem + "." + ext;
            base != ".." && StripExtension(base) == stem
  {
    var base := stem + "." + ext;
    assert base[|stem|] == '.';
    forall k | |stem| < k < |base|
      ensures base[k] != '.'
    {
      assert base[k] == ext[k - |stem| - 1];
    }
    LastIndexOfAt(base, '.', |stem|);
    assert base[..|stem|] == stem;
  }

  /** A file `dir + stem + "." + ext` whose directory part is empty or ends in
      '/', whose stem holds no '/' and whose extension holds neither '/' nor
      '.' is named by its stem. */
  lemma NameOfDeclared(dir: string, stem: string, ext: string)
    requires dir == [] || dir[|dir| - 1] == '/'
    requires stem != [] && '/' !in stem
    requires '/' !in ext && '.' !in ext
    requires stem != "." || ext != []
    ensures Name(dir + stem + "." + ext) == stem
  {
    var base := stem + "." + ext;
    assert dir + stem + "." + ext == dir + base;
    BaseNameAfterDir(dir, base);
    StemOfBase(stem, ext);
  }

  /** A name without '/' or '.' is its own plugin name. */
  lemma PlainName(file: string)
    requires '/' !in file && '.' !in file
    ensures Name(file) == file
  {
    if file != [] {
      assert file[|file| - 1] != '/';
    }
  }

  /** The path a plugin of name `id` is mounted at, `'/plugins/' + plugin`. */
  function PrefixOf(id: string): string
  {
    "/plugins/" + id
  }

  /** One entry of the mount table: a declared file, mounted under its name,
      which is also the name its handler's notifications go out under. */
  datatype Mount = Mount(file: string) {
    function Id(): string
    {
      Name(file)
    }

    function Prefix(): string
    {
      PrefixOf(Id())
    }
  }

  /** The entries for a list of declared files, in declaration order. */
  function MountsOf(files: seq<string>): (ms: seq<Mount>)
    ensures |ms| == |files|
  {
    if files == [] then [] else MountsOf(files[..|files| - 1]) + [Mount(files[|files| - 1])]
  }

  /** The mount table `plugins.forEach` builds; none when the key is absent. */
  function MountTable(plugins: Option<seq<string>>): seq<Mount>
  {
    match plugins
    case None => []
    case Some(files) => MountsOf(files)
  }

  /** The k-th entry of the table is the k-th declared file's. */
  lemma {:induction false} MountsOfAt(files: seq<string>, k: nat)
    requires k < |files|
    ensures MountsOf(files)[k] == Mount(files[k])
  {
    if k < |files| - 1 {
      MountsOfAt(files[..|files| - 1], k);
    }
  }

  /** The startup loop over the `plugins` list. Loading the module and
      mounting its handler are not modelled; the entry records what is
      mounted where. */
  method MountAll(plugins: Option<seq<string>>) returns (mounts: seq<Mount>)
    ensures mounts == MountTable(plugins)
  {
    mounts := [];
    if plugins.Some? {
      var files := plugins.value;
      for i := 0 to |files|
        invariant mounts == MountsOf(files[..i])
      {
        mounts := mounts + [Mount(files[i])];
        assert files[..i + 1][..i] == files[..i];
      }
      assert files[..|files|] == files;
    }
  }

  /** `path` reaches a handler mounted at `prefix`: Express matches the mount
      path itself (a trailing '/' of it being optional) and everything below
      it, but not a longer name beginning with it. */
  predicate Under(prefix: string, path: string)
  {
    var p := if prefix != [] && prefix[|prefix| - 1] == '/' then prefix[..|prefix| - 1] else prefix;
    |p| <= |path| && path[..|p|] == p && (|path| == |p| || path[|p|] == '/')
  }

  /** The mount paths of the table, in declaration order. */
  function Prefixes(mounts: seq<Mount>): (ps: seq<string>)
    ensures |ps| == |mounts|
  {
    if mounts == [] then [] else Prefixes(mounts[..|mounts| - 1]) + [mounts[|mounts| - 1].Prefix()]
  }

  lemma {:induction false} PrefixesAt(mounts: seq<Mount>, k: nat)
    requires k < |mounts|
    ensures Prefixes(mounts)[k] == mounts[k].Prefix()
  {
    if k < |mounts| - 1 {
      PrefixesAt(mounts[..|mounts| - 1], k);
    }
  }

  /** The first mount path, in the order the router holds them, that `path`
      is under. */
  function FirstMount(prefixes: seq<string>, path: string): (k: Option<nat>)
    ensures k.Some? ==> k.value < |prefixes| && Under(prefixes[k.value], path)
    ensures k.Some? ==> forall j :: 0 <= j < k.value ==> !Under(prefixes[j], path)
    ensures k.None? ==> forall j :: 0 <= j < |prefixes| ==> !Under(prefixes[j], path)
  {
    if prefixes == [] then None
    else if Under(prefixes[0], path) then Some(0)
    else
      match FirstMount(prefixes[1..], path)
      case None => None
      case Some(j) =>
        assert forall i :: 0 <= i < j ==> prefixes[1..][i] == prefixes[i + 1];
        Some(j + 1)
  }

  /** Two non-empty plugin names without '/' whose mount points both cover a
      path are the same name. */
  lemma MountsDisjoint(a: string, b: string, path: string)
    requires a != [] && '/' !in a && b != [] && '/' !in b
    requires Under(PrefixOf(a), path) && Under(PrefixOf(b), path)
    ensures a == b
  {
    var pa, pb := PrefixOf(a), PrefixOf(b);
    assert pa[|pa| - 1] == a[|a| - 1] && pb[|pb| - 1] == b[|b| - 1];
    assert |a| == |b|;
    assert pa == path[..|pa|] == pb;
    assert a == pa[9..] && b == pb[9..];
  }

  /** A request routed to a plugin never reaches a plugin of another
      non-empty name, declared before or after it. */
  lemma MountIsolation(mounts: seq<Mount>, path: string, k: nat, j: nat)
    requires FirstMount(Prefixes(mounts), path) == Some(k)
    requires j < |mounts| && mounts[j].Id() != mounts[k].Id()
    requires mounts[j].Id() != [] && mounts[k].Id() != []
    ensures !Under(mounts[j].Prefix(), path)
  {
    PrefixesAt(mounts, k);
    if Under(mounts[j].Prefix(), path) {
      NameHasNoSlash(mounts[j].file);
      NameHasNoSlash(mounts[k].file);
      MountsDisjoint(mounts[j].Id(), mounts[k].Id(), path);
    }
  }

  /** A JavaScript file in the working directory is named by its stem. */
  lemma JsFileName(stem: string)
    requires stem != [] && '/' !in stem
    ensures Name(stem + ".js") == stem
  {
    assert stem + ".js" == "" + stem + "." + "js";
    NameOfDeclared("", stem, "js");
  }

  /** Plugins declared as `a + ".js"` and `b + ".js"` are mounted, in that
      order, as `a` and `b`. */
  lemma TwoPluginsMounted(a: string, b: string)
    requires a != [] && '/' !in a && b != [] && '/' !in b
    ensures var ms := MountTable(Some([a + ".js", b + ".js"]));
            |ms| == 2 && ms[0].Id() == a && ms[1].Id() == b
  {
    JsFileName(a);
    JsFileName(b);
    MountsOfAt([a + ".js", b + ".js"], 0);
    MountsOfAt([a + ".js", b + ".js"], 1);
  }

  /** A mounted handler is reached by its own prefix and anything below it. */
  lemma UnderOwnPrefix(id: string, rest: string)
    requires id != []
    ensures Under(PrefixOf(id), PrefixOf(id) + "/" + rest)
  {
    var p := PrefixOf(id);
    assert p[|p| - 1] == id[|id| - 1];
    assert (p + "/" + rest)[..|p|] == p;
  }

  /** No mount path covers a path whose second character is not the 'p' of
      `/plugins`, such as `/` or `/subscribe/...`. */
  lemma OutsidePlugins(id: string, path: string)
    requires |path| < 2 || path[1] != 'p'
    ensures !Under(PrefixOf(id), path)
  {
    var prefix := PrefixOf(id);
    var p := if prefix != [] && prefix[|prefix| - 1] == '/' then prefix[..|prefix| - 1] else prefix;
    assert |p| >= 8 && p[1] == 'p';
    assert |p| <= |path| ==> path[..|p|][1] == path[1];
  }

  /** With two plugins of different names, a request below the first one's
      prefix reaches the first and a request below the second one's prefix
      reaches the second. */
  lemma TwoPluginsReached(ms: seq<Mount>, rest: string)
    requires |ms| == 2 && ms[0].Id() != ms[1].Id()
    requires ms[0].Id() != [] && ms[1].Id() != []
    ensures FirstMount(Prefixes(ms), ms[0].Prefix() + "/" + rest) == Some(0)
    ensures FirstMount(Prefixes(ms), ms[1].Prefix() + "/" + rest) == Some(1)
  {
    PrefixesAt(ms, 0);
    PrefixesAt(ms, 1);
    UnderOwnPrefix(ms[0].Id(), rest);
    UnderOwnPrefix(ms[1].Id(), rest);
    if Under(ms[0].Prefix(), ms[1].Prefix() + "/" + rest) {
      NameHasNoSlash(ms[0].file);
      NameHasNoSlash(ms[1].file);
      MountsDisjoint(ms[0].Id(), ms[1].Id(), ms[1].Prefix() + "/" + rest);
    }
  }
}
