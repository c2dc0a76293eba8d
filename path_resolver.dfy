/** Resolution of Godot's virtual paths to real file-system paths, as the Crashpad
    installer does before it hands paths to the native crash handler
    (`Crashpad::get_global_path_from_local_path`). */
module PathResolver {
  import opened Godot

  /** The prefix of paths relative to the installation (the executable's directory). */
  const ResPrefix: string := "res://"
  /** The prefix of paths relative to the engine's user-data directory. */
  const UserPrefix: string := "user://"

  /** `pat` occurs in `s` starting at index `i`. */
  predicate OccursAt(pat: string, s: string, i: nat) {
    i <= |s| && pat <= s[i..]
  }

  /** `pat` occurs somewhere in `s`. */
  ghost predicate Occurs(pat: string, s: string) {
    exists i: nat :: OccursAt(pat, s, i)
  }

  /** Godot's `String::replace`: every occurrence of `pat`, found left to right without
      overlap, is replaced by `rep`. */
  function ReplaceAll(s: string, pat: string, rep: string): string
    requires pat != []
    decreases |s|
  {
    if pat <= s then rep + ReplaceAll(s[|pat|..], pat, rep)
    else if s == [] then []
    else [s[0]] + ReplaceAll(s[1..], pat, rep)
  }

  /** A string in which the pattern does not occur comes out of a replacement unchanged. */
  lemma {:induction false} ReplaceAllWithoutMatch(s: string, pat: string, rep: string)
    requires pat != [] && !Occurs(pat, s)
    ensures ReplaceAll(s, pat, rep) == s
  {
    if s != [] {
      assert s[0..] == s;
      assert !OccursAt(pat, s, 0);
      if Occurs(pat, s[1..]) {
        var i: nat :| OccursAt(pat, s[1..], i);
        assert s[1..][i..] == s[i + 1..];
        assert OccursAt(pat, s, i + 1);
      }
      ReplaceAllWithoutMatch(s[1..], pat, rep);
    }
  }

  /** A pattern cannot occur in a string that lacks one of the pattern's characters. */
  lemma MissingCharacterPreventsMatch(pat: string, s: string, j: nat)
    requires j < |pat| && pat[j] !in s
    ensures !Occurs(pat, s)
  {
  }

  /** `Crashpad::get_global_path_from_local_path`: a "res://" path is resolved against
      the executable's directory, with each "res://" in it turned into "/"; a "user://"
      path is handed to the engine; any other path is returned as it is. */
  function GlobalPath(host: Host, localPath: string): (r: string)
    ensures !(ResPrefix <= localPath) && !(UserPrefix <= localPath) ==> r == localPath
    ensures UserPrefix <= localPath ==> r == host.localizePath(localPath)
    ensures ResPrefix <= localPath ==>
              r == host.executableBaseDir + "/" + ReplaceAll(localPath[|ResPrefix|..], ResPrefix, "/")
  {
    if ResPrefix <= localPath then
      assert localPath[0] != UserPrefix[0];
      host.executableBaseDir + ReplaceAll(localPath, ResPrefix, "/")
    else if UserPrefix <= localPath then
      host.localizePath(localPath)
    else
      localPath
  }

  /** "res://X", where X holds no further "res://", resolves to the executable's
      directory, a "/", and X. */
  lemma ResPathResolves(host: Host, rest: string)
    requires !Occurs(ResPrefix, rest)
    ensures GlobalPath(host, ResPrefix + rest) == host.executableBaseDir + "/" + rest
  {
    var p := ResPrefix + rest;
    assert ResPrefix <= p;
    assert p[|ResPrefix|..] == rest;
    ReplaceAllWithoutMatch(rest, ResPrefix, "/");
  }

  /** "res://" followed by a name without ':' resolves to that name next to the executable. */
  lemma ResolvesNextToExecutable(host: Host, name: string)
    requires ':' !in name
    ensures GlobalPath(host, ResPrefix + name) == host.executableBaseDir + "/" + name
  {
    MissingCharacterPreventsMatch(ResPrefix, name, 3);
    ResPathResolves(host, name);
  }
}
