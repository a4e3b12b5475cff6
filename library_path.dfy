// Classifying modules as third-party libraries by where their source file lives
// (uc_functions/visitors.py: is_library_path, is_library_module).

module LibraryPath {
  import opened Util

  /** The path fragments that mark an installed library. */
  const LibraryMarkers: seq<string> := ["site-packages", "lib-dynload", "dist-packages", "lib/python"]

  /** A path is a library path when one of the markers occurs in it. */
  predicate IsLibraryPathSpec(path: string)
  {
    exists k | 0 <= k < |LibraryMarkers| :: IsSubstring(LibraryMarkers[k], path)
  }

  /** Python's `sub in s`, by scanning every start position. */
  method Contains(sub: string, s: string) returns (b: bool)
    ensures b <==> IsSubstring(sub, s)
  {
    if |sub| > |s| {
      return false;
    }
    for i := 0 to |s| - |sub| + 1
      invariant forall j | 0 <= j < i :: !OccursAt(sub, s, j)
    {
      if s[i..i + |sub|] == sub {
        assert OccursAt(sub, s, i);
        return true;
      }
    }
    return false;
  }

  /** `is_library_path`: tries the markers in order and stops at the first one
      found in the path. */
  method IsLibraryPath(path: string) returns (b: bool)
    ensures b <==> IsLibraryPathSpec(path)
  {
    for k := 0 to |LibraryMarkers|
      invariant forall j | 0 <= j < k :: !IsSubstring(LibraryMarkers[j], path)
    {
      var found := Contains(LibraryMarkers[k], path);
      if found {
        return true;
      }
    }
    return false;
  }

  /** Where importing a module by name leads: the import fails, the module has no
      source file (a built-in module or a namespace package), or it is loaded from
      a file at `path`. */
  datatype ModuleLocation = NotImportable | NoFile | File(path: string)

  /** `is_library_module`: "builtins" always counts; any other module counts
      exactly when it imports and its file lies on a library path. */
  predicate IsLibraryModule(name: string, locate: string -> ModuleLocation)
  {
    name == "builtins" || (locate(name).File? && IsLibraryPathSpec(locate(name).path))
  }

  /** A module that cannot be imported, or has no file, is not a library unless it
      is "builtins"; in particular local code that fails to import is inlined. */
  lemma UnlocatableIsLocal(name: string, locate: string -> ModuleLocation)
    requires !locate(name).File?
    ensures IsLibraryModule(name, locate) <==> name == "builtins"
  {
  }

  /** A module under a `site-packages` directory is a library. */
  lemma {:induction false} SitePackagesIsLibrary(prefix: string, suffix: string)
    ensures IsLibraryPathSpec(prefix + "site-packages" + suffix)
  {
    var path := prefix + "site-packages" + suffix;
    assert path[|prefix|..|prefix| + 13] == "site-packages";
    assert OccursAt(LibraryMarkers[0], path, |prefix|);
  }

  /** A module under a `lib-dynload` directory is a library. */
  lemma {:induction false} LibDynloadIsLibrary(prefix: string, suffix: string)
    ensures IsLibraryPathSpec(prefix + "lib-dynload" + suffix)
  {
    var path := prefix + "lib-dynload" + suffix;
    assert path[|prefix|..|prefix| + 11] == "lib-dynload";
    assert OccursAt(LibraryMarkers[1], path, |prefix|);
  }

  /** Each marker holds a '-' or a 'b' (at the given position), so a path
      with neither character is never a library path. */
  lemma {:induction false} NoDashNoBIsLocal(path: string)
    requires forall i | 0 <= i < |path| :: path[i] != '-' && path[i] != 'b'
    ensures !IsLibraryPathSpec(path)
  {
    var at := [4, 3, 4, 2];
    forall k, i | 0 <= k < |LibraryMarkers| && 0 <= i <= |path| - |LibraryMarkers[k]|
      ensures !OccursAt(LibraryMarkers[k], path, i)
    {
      var m := LibraryMarkers[k];
      assert m[at[k]] == '-' || m[at[k]] == 'b';
      assert path[i..i + |m|][at[k]] == path[i + at[k]];
    }
  }

  /** Files of a project in a home directory, or under /tmp, are not libraries. */
  lemma ProjectFilesAreLocal()
    ensures !IsLibraryPathSpec("/home/user/projects/some_module.py")
    ensures !IsLibraryPathSpec("/tmp/some_module.py")
  {
    NoDashNoBIsLocal("/home/user/projects/some_module.py");
    NoDashNoBIsLocal("/tmp/some_module.py");
  }
}
