/** The Crashpad installer (`modules/crashpad`): it checks for the out-of-process handler
    executable, makes sure the crash database directory exists, initialises the
    database, and starts the handler with the upload URL, the user's attributes as
    annotations and the handler's extra arguments. */
module CrashpadInstaller {
  import opened Godot
  import opened PathResolver

  /** The handler executable's file name, looked for next to the executable on Windows
      when no path is configured. */
  const HandlerFileName: string := "crashpad_handler.exe"
  const DefaultApplicationPath: string := ResPrefix + HandlerFileName
  /** The database directory, next to the executable, used when no path is configured. */
  const DatabaseDirName: string := "Crashpad/db/"
  const DefaultDatabasePath: string := ResPrefix + DatabaseDirName
  /** The one extra argument the installer passes to the handler. */
  const NoRateLimit: string := "--no-rate-limit"

  /** A call the installer makes into the Crashpad SDK, recorded in the order made. */
  datatype SdkCall =
    | InitializeDatabase(path: string)
    | EnableUploads(path: string)
    | StartHandler(handler: string, database: string, metricsDir: string, url: string,
                   annotations: map<string, string>, arguments: seq<string>,
                   restartable: bool, asynchronousStart: bool)

  /** What the host and the SDK answer during installation: whether the database
      directory could be made, whether `CrashReportDatabase::Initialize` yields a
      database with settings, and what `CrashpadClient::StartHandler` returns. */
  datatype ExternalResults = ExternalResults(makeDirSucceeds: bool, databaseInitialized: bool, handlerStarted: bool)

  /** The application path after `check_for_crashpad_application` has filled in its default. */
  function DefaultedApplicationPath(platform: Platform, path: string): string {
    if path == "" && platform == Windows then DefaultApplicationPath else path
  }

  /** The database path after `check_for_crashpad_database` has filled in its default. */
  function DefaultedDatabasePath(path: string): string {
    if path == "" then DefaultDatabasePath else path
  }

  /** The default paths name the handler and the database next to the executable. */
  lemma DefaultsResolve(host: Host)
    ensures GlobalPath(host, DefaultApplicationPath) == host.executableBaseDir + "/" + HandlerFileName
    ensures GlobalPath(host, DefaultDatabasePath) == host.executableBaseDir + "/" + DatabaseDirName
  {
    ResolvesNextToExecutable(host, HandlerFileName);
    ResolvesNextToExecutable(host, DatabaseDirName);
  }

  /** `std::map::insert`: the pair goes in only when the key is not there yet. */
  function MapInsert(m: map<string, string>, key: string, value: string): map<string, string> {
    if key in m then m else m[key := value]
  }

  /** The annotations after inserting every attribute, in index order, into `m`. */
  function InsertAll(m: map<string, string>, attributes: Dictionary): map<string, string>
    decreases |attributes|
  {
    if attributes == [] then m
    else
      var last := attributes[|attributes| - 1];
      MapInsert(InsertAll(m, attributes[..|attributes| - 1]), last.0, last.1)
  }

  /** The keys of a dictionary. */
  function KeysOf(attributes: Dictionary): set<string> {
    set i | 0 <= i < |attributes| :: attributes[i].0
  }

  /** Inserting the attributes adds exactly their keys. */
  lemma {:induction false} InsertAllKeys(m: map<string, string>, attributes: Dictionary)
    ensures InsertAll(m, attributes).Keys == m.Keys + KeysOf(attributes)
  {
    if attributes != [] {
      var n := |attributes| - 1;
      var front := attributes[..n];
      InsertAllKeys(m, front);
      assert KeysOf(attributes) == KeysOf(front) + {attributes[n].0} by {
        forall k | k in KeysOf(attributes) ensures k in KeysOf(front) + {attributes[n].0} {
          var i :| 0 <= i < |attributes| && attributes[i].0 == k;
          if i < n {
            assert front[i] == attributes[i];
          }
        }
        forall k | k in KeysOf(front) ensures k in KeysOf(attributes) {
          var i :| 0 <= i < |front| && front[i].0 == k;
          assert attributes[i] == front[i];
        }
      }
    }
  }

  /** An annotation already present is never overwritten by an attribute. */
  lemma {:induction false} InsertAllKeepsExisting(m: map<string, string>, attributes: Dictionary, key: string)
    requires key in m
    ensures key in InsertAll(m, attributes) && InsertAll(m, attributes)[key] == m[key]
  {
    if attributes != [] {
      InsertAllKeepsExisting(m, attributes[..|attributes| - 1], key);
    }
  }

  /** A key that was not yet annotated takes the value of its first attribute. */
  lemma {:induction false} InsertAllFirstWins(m: map<string, string>, attributes: Dictionary, i: nat)
    requires i < |attributes| && attributes[i].0 !in m
    requires forall j :: 0 <= j < i ==> attributes[j].0 != attributes[i].0
    ensures attributes[i].0 in InsertAll(m, attributes)
    ensures InsertAll(m, attributes)[attributes[i].0] == attributes[i].1
  {
    var n := |attributes| - 1;
    var front := attributes[..n];
    var key := attributes[i].0;
    if i < n {
      assert front[i] == attributes[i];
      InsertAllFirstWins(m, front, i);
    } else {
      InsertAllKeys(m, front);
      assert key !in KeysOf(front);
    }
  }

  /** The configuration that every Crashpad node shares (the class's static fields). */
  class CrashpadSettings {
    var skipErrorUpload: bool
    var userCrashAttributes: Dictionary
    var uploadGodotLog: bool
    var apiUrl: string
    var apiToken: string
    var databasePath: string
    var applicationPath: string

    /** The static initialisers: nothing configured, nothing skipped. */
    constructor ()
      ensures !skipErrorUpload && userCrashAttributes == [] && !uploadGodotLog
      ensures apiUrl == "" && apiToken == "" && databasePath == "" && applicationPath == ""
    {
      skipErrorUpload := false;
      userCrashAttributes := [];
      uploadGodotLog := false;
      apiUrl := "";
      apiToken := "";
      databasePath := "";
      applicationPath := "";
    }

    method SetApiUrl(newUrl: string)
      modifies this`apiUrl
      ensures apiUrl == newUrl
    {
      apiUrl := newUrl;
    }

    method GetApiUrl() returns (url: string)
      ensures url == apiUrl
    {
      url := apiUrl;
    }

    method SetApiToken(newToken: string)
      modifies this`apiToken
      ensures apiToken == newToken
    {
      apiToken := newToken;
    }

    method GetApiToken() returns (token: string)
      ensures token == apiToken
    {
      token := apiToken;
    }

    method SetApplicationPath(newPath: string)
      modifies this`applicationPath
      ensures applicationPath == newPath
    {
      applicationPath := newPath;
    }

    method GetApplicationPath() returns (path: string)
      ensures path == applicationPath
    {
      path := applicationPath;
    }

    method SetDatabasePath(newPath: string)
      modifies this`databasePath
      ensures databasePath == newPath
    {
      databasePath := newPath;
    }

    method GetDatabasePath() returns (path: string)
      ensures path == databasePath
    {
      path := databasePath;
    }

    method SetSkipErrorUpload(newValue: bool)
      modifies this`skipErrorUpload
      ensures skipErrorUpload == newValue
    {
      skipErrorUpload := newValue;
    }

    method GetSkipErrorUpload() returns (value: bool)
      ensures value == skipErrorUpload
    {
      value := skipErrorUpload;
    }

    method SetUserCrashAttributes(newValue: Dictionary)
      modifies this`userCrashAttributes
      ensures userCrashAttributes == newValue
    {
      userCrashAttributes := newValue;
    }

    method GetUserCrashAttributes() returns (value: Dictionary)
      ensures value == userCrashAttributes
    {
      value := userCrashAttributes;
    }

    method SetUploadGodotLog(newValue: bool)
      modifies this`uploadGodotLog
      ensures uploadGodotLog == newValue
    {
      uploadGodotLog := newValue;
    }

    method GetUploadGodotLog() returns (value: bool)
      ensures value == uploadGodotLog
    {
      value := uploadGodotLog;
    }
  }

  /** A getter called after its setter returns the value set, and the other settings
      keep their values. */
  method SetThenGetApiUrl(settings: CrashpadSettings, newUrl: string) returns (url: string)
    modifies settings
    ensures url == newUrl
    ensures settings.apiToken == old(settings.apiToken) && settings.databasePath == old(settings.databasePath)
    ensures settings.applicationPath == old(settings.applicationPath)
    ensures settings.skipErrorUpload == old(settings.skipErrorUpload)
    ensures settings.userCrashAttributes == old(settings.userCrashAttributes)
    ensures settings.uploadGodotLog == old(settings.uploadGodotLog)
  {
    settings.SetApiUrl(newUrl);
    url := settings.GetApiUrl();
  }

  /** A Crashpad node: the shared settings, and the state that installing the handler
      leaves behind. `sdkCalls` records the calls made into the Crashpad SDK. */
  class Crashpad {
    const settings: CrashpadSettings
    var clientInit: bool
    var annotations: map<string, string>
    var arguments: seq<string>
    ghost var sdkCalls: seq<SdkCall>

    constructor (settings: CrashpadSettings)
      ensures this.settings == settings
      ensures !clientInit && annotations == map[] && arguments == [] && sdkCalls == []
    {
      this.settings := settings;
      clientInit := false;
      annotations := map[];
      arguments := [];
      sdkCalls := [];
    }

    /** `check_for_crashpad_application`: on Windows an empty application path becomes
        the default; the answer is whether the resolved path names an existing file. */
    method CheckForApplication(host: Host, fs: FileSystem) returns (found: bool)
      modifies settings`applicationPath
      ensures settings.applicationPath == DefaultedApplicationPath(host.platform, old(settings.applicationPath))
      ensures found <==> GlobalPath(host, settings.applicationPath) in fs.files
    {
      if settings.applicationPath == "" {
        if host.platform == Windows {
          settings.applicationPath := DefaultApplicationPath;
        }
      }
      var actualPath := GlobalPath(host, settings.applicationPath);
      found := actualPath in fs.files;
    }

    /** `check_for_crashpad_database`: an empty database path becomes the default; an
        existing directory answers true; a missing one answers false, or, when asked
        to make it, is made and answers true whether or not that worked. */
    method CheckForDatabase(host: Host, fs: FileSystem, makeIfNotExist: bool, makeDirSucceeds: bool)
      returns (ok: bool)
      modifies settings`databasePath, fs`dirs
      ensures settings.databasePath == DefaultedDatabasePath(old(settings.databasePath))
      ensures var actualPath := GlobalPath(host, settings.databasePath);
              if actualPath in old(fs.dirs) then ok && fs.dirs == old(fs.dirs)
              else if !makeIfNotExist then !ok && fs.dirs == old(fs.dirs)
              else ok && fs.dirs == if makeDirSucceeds then old(fs.dirs) + {actualPath} else old(fs.dirs)
    {
      if settings.databasePath == "" {
        settings.databasePath := DefaultDatabasePath;
      }
      var actualPath := GlobalPath(host, settings.databasePath);
      if actualPath !in fs.dirs {
        if makeIfNotExist {
          fs.MakeDirRecursive(actualPath, makeDirSucceeds);
          return true;
        } else {
          return false;
        }
      }
      return true;
    }

    /** The annotation loop of `start_crashpad`: each attribute, in index order, is
        inserted into the annotations unless its key is already there. */
    method InsertAnnotations(attributes: Dictionary)
      modifies this`annotations
      ensures annotations == InsertAll(old(annotations), attributes)
    {
      var i := 0;
      while i < |attributes|
        invariant 0 <= i <= |attributes|
        invariant annotations == InsertAll(old(annotations), attributes[..i])
      {
        var (key, value) := attributes[i];
        if key !in annotations {
          annotations := annotations[key := value];
        }
        assert attributes[..i + 1][..i] == attributes[..i];
        i := i + 1;
      }
      assert attributes[..i] == attributes;
    }

    /** `start_crashpad`. On a platform without Crashpad nothing happens. A missing
        handler stops everything before the database is touched. Otherwise the database
        directory is made sure of and the database initialised; if that succeeds,
        uploads are enabled, "--no-rate-limit" is appended to the arguments, the
        attributes are inserted into the annotations, and, unless uploads are skipped,
        the handler is started with the upload URL and its result recorded. */
    method StartCrashpad(host: Host, fs: FileSystem, results: ExternalResults)
      modifies this, settings`applicationPath, settings`databasePath, fs`dirs
      ensures !host.platform.SupportsCrashpad() ==> unchanged(this, settings, fs)
      ensures host.platform.SupportsCrashpad() ==>
                settings.applicationPath == DefaultedApplicationPath(host.platform, old(settings.applicationPath))
      // a missing handler: no directory made, no database, no argument, annotation or client change
      ensures host.platform.SupportsCrashpad() && GlobalPath(host, settings.applicationPath) !in fs.files ==>
                unchanged(this, fs) && settings.databasePath == old(settings.databasePath)
      // the handler is there: the database directory is defaulted and made when missing
      ensures host.platform.SupportsCrashpad() && GlobalPath(host, settings.applicationPath) in fs.files ==>
                settings.databasePath == DefaultedDatabasePath(old(settings.databasePath)) &&
                fs.dirs == if results.makeDirSucceeds then old(fs.dirs) + {GlobalPath(host, settings.databasePath)}
                           else old(fs.dirs)
      // ... and the database is initialised; a failure ends the installation there
      ensures host.platform.SupportsCrashpad() && GlobalPath(host, settings.applicationPath) in fs.files &&
              !results.databaseInitialized ==>
                sdkCalls == old(sdkCalls) + [InitializeDatabase(GlobalPath(host, settings.databasePath))] &&
                clientInit == old(clientInit) && annotations == old(annotations) && arguments == old(arguments)
      // ... on success: uploads enabled, one "--no-rate-limit", attributes inserted, handler started unless skipped
      ensures host.platform.SupportsCrashpad() && GlobalPath(host, settings.applicationPath) in fs.files &&
              results.databaseInitialized ==>
                var database := GlobalPath(host, settings.databasePath);
                var handler := GlobalPath(host, settings.applicationPath);
                var url := settings.apiUrl + settings.apiToken + "/minidump";
                arguments == old(arguments) + [NoRateLimit] &&
                annotations == InsertAll(old(annotations), settings.userCrashAttributes) &&
                clientInit == (if settings.skipErrorUpload then old(clientInit) else results.handlerStarted) &&
                sdkCalls == old(sdkCalls) + [InitializeDatabase(database), EnableUploads(database)] +
                            (if settings.skipErrorUpload then []
                             else [StartHandler(handler, database, database, url, annotations, arguments, true, true)])
    {
      if !host.platform.SupportsCrashpad() {
        return;
      }
      var found := CheckForApplication(host, fs);
      if !found {
        return;
      }
      var _ := CheckForDatabase(host, fs, true, results.makeDirSucceeds);

      var database := GlobalPath(host, settings.databasePath);
      var handler := GlobalPath(host, settings.applicationPath);
      sdkCalls := sdkCalls + [InitializeDatabase(database)];
      if !results.databaseInitialized {
        return;
      }
      sdkCalls := sdkCalls + [EnableUploads(database)];

      var uploadUrl := settings.apiUrl + settings.apiToken + "/minidump";
      arguments := arguments + [NoRateLimit];

      InsertAnnotations(settings.userCrashAttributes);

      // the log-file attachment only prints a warning
      if settings.skipErrorUpload {
        return;
      }
      sdkCalls := sdkCalls + [StartHandler(handler, database, database, uploadUrl, annotations, arguments, true, true)];
      clientInit := results.handlerStarted;
    }
  }
}
