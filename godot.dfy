/** The parts of the Godot engine that the crash-reporting modules rely on, reduced to
    what those modules observe of them. */
module Godot {

  /** A Godot `Dictionary` whose keys and values are read as strings, given as its
      key/value pairs in index order (`get_key_at_index(i)`, `get_value_at_index(i)`). */
  type Dictionary = seq<(string, string)>

  /** The platform the module is compiled for; the source chooses code with the
      WINDOWS_ENABLED and OSX_ENABLED preprocessor flags. `OtherPlatform` stands for
      every platform that is neither Windows nor macOS: all of them take the same
      "not supported" fallthrough. */
  datatype Platform = Windows | MacOS | OtherPlatform {
    /** Crashpad is only built in on Windows and macOS. */
    predicate SupportsCrashpad() {
      this == Windows || this == MacOS
    }
  }

  /** What the engine reports about the place it runs in: the directory that holds the
      running executable (`OS::get_executable_path().get_base_dir()`) and the engine's
      own rewriting of "user://" paths (`ProjectSettings::localize_path`), which stays
      uninterpreted here. */
  datatype Host = Host(platform: Platform, executableBaseDir: string, localizePath: string -> string)

  /** The real file system as `FileAccess::exists`, `DirAccess::exists` and
      `DirAccess::make_dir_recursive` see it: the paths of existing files and of
      existing directories. */
  class FileSystem {
    var files: set<string>
    var dirs: set<string>

    constructor (files: set<string>, dirs: set<string>)
      ensures this.files == files && this.dirs == dirs
    {
      this.files := files;
      this.dirs := dirs;
    }

    /** Creates the directory `path`; whether the host manages to is its own affair,
        passed in as `succeeds`. */
    method MakeDirRecursive(path: string, succeeds: bool)
      modifies this`dirs
      ensures dirs == if succeeds then old(dirs) + {path} else old(dirs)
    {
      if succeeds {
        dirs := dirs + {path};
      }
    }
  }
}
