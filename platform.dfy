/**
 * Per-platform plugin file names. The Rust code selects one definition of
 * `add_plugin_ext` and `from_plugin_file_name` per target OS with `cfg`;
 * the model takes the OS as a parameter instead.
 */
module Platform {

  datatype Os = Windows | Linux | MacOS

  /** The dynamically linked C library extension of each OS. */
  const WINDOWS_PLUGIN_EXT: string := ".dll"
  const LINUX_PLUGIN_EXT: string := ".so"
  const DARWIN_PLUGIN_EXT: string := ".dylib"

  function PluginExt(os: Os): string {
    match os
    case Windows => WINDOWS_PLUGIN_EXT
    case Linux => LINUX_PLUGIN_EXT
    case MacOS => DARWIN_PLUGIN_EXT
  }

  /** `add_plugin_ext`: the library name with the OS's extension appended. */
  function AddPluginExt(os: Os, libName: string): (r: string)
    ensures |r| > |libName| && r[..|libName|] == libName
    ensures os == Windows ==> r[|libName|..] == ".dll"
    ensures os == Linux ==> r[|libName|..] == ".so"
    ensures os == MacOS ==> r[|libName|..] == ".dylib"
  {
    libName + PluginExt(os)
  }

  /** `from_plugin_file_name`: the name cargo gives the built artifact (`lib` prefix on Unix). */
  function FromPluginFileName(os: Os, libName: string): (r: string)
    ensures os == Windows ==> r == libName
    ensures os != Windows ==> |r| == |libName| + 3 && r[..3] == "lib" && r[3..] == libName
  {
    if os == Windows then libName else "lib" + libName
  }

  /** Distinct plugin names get distinct file names, so two plugins never share a symlink. */
  lemma AddPluginExtInjective(os: Os, a: string, b: string)
    requires AddPluginExt(os, a) == AddPluginExt(os, b)
    ensures a == b
  {
    var e := PluginExt(os);
    assert |a| == |b|;
    calc {
      a;
      (a + e)[..|a|];
      (b + e)[..|b|];
      b;
    }
  }

  /** The artifact cargo builds for a library is its extended name, with `lib` in front on Unix. */
  lemma ArtifactNameShape(os: Os, libName: string)
    ensures FromPluginFileName(os, AddPluginExt(os, libName))
         == (if os == Windows then "" else "lib") + libName + PluginExt(os)
  {
  }

  /**
   * The artifact already has the name it is renamed to exactly when the key
   * is the library name, with `lib` in front on Unix.
   */
  lemma ArtifactHasRenamedName(os: Os, libName: string, key: string)
    ensures FromPluginFileName(os, AddPluginExt(os, libName)) == AddPluginExt(os, key)
        <==> key == (if os == Windows then "" else "lib") + libName
  {
    var e := PluginExt(os);
    var pre := (if os == Windows then "" else "lib") + libName;
    assert FromPluginFileName(os, AddPluginExt(os, libName)) == pre + e;
    if pre + e == key + e {
      assert |pre| == |key|;
      calc {
        pre;
        (pre + e)[..|pre|];
        (key + e)[..|key|];
        key;
      }
    }
  }

  /**
   * On Unix a key with the `reaper_` prefix `validate_plugin` asks for never
   * names the artifact cargo built, so the rename always moves it.
   */
  lemma UnixArtifactDiffersFromRenamed(os: Os, libName: string, key: string)
    ensures os != Windows && |key| >= 7 && key[..7] == "reaper_" ==>
      FromPluginFileName(os, AddPluginExt(os, libName)) != AddPluginExt(os, key)
  {
    if os != Windows && |key| >= 7 && key[..7] == "reaper_" {
      ArtifactHasRenamedName(os, libName, key);
      assert key[..7][0] == 'r' != ("lib" + libName)[0];
    }
  }
}
