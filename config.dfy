/** The configuration store: its defaults, the version counter that every
    save bumps, the load fallback from the primary file through the backups
    to the defaults, and the "import only if newer" gate of remote management.
    JSON is abstract: the disk is a map from a path to the configuration that
    file holds, and a file that is missing or does not parse is absent. */
module Config {
  import opened GoRuntime
  import opened GoTime

  datatype PACSConfig = PACSConfig(enabled: bool, host: GoString, port: int,
                                   calledAETitle: GoString, callingAETitle: GoString, timeout: int,
                                   maxRetries: int, retryDelay: int, useTLS: bool)

  datatype AppConfig = AppConfig(language: GoString, darkMode: bool, autoExport: bool,
                                 outputDir: GoString, logLevel: GoString, kioskMode: bool)

  datatype QueueConfig = QueueConfig(maxConcurrent: int, retryInterval: int, maxQueueSize: int,
                                     persistenceDir: GoString)

  /** An emergency patient; `birthDate` may be relative, as "TODAY-40Y". */
  datatype PatientTemplate = PatientTemplate(id: GoString, name: GoString, displayName: GoString,
                                             patientName: GoString, patientId: GoString, sex: GoString,
                                             birthDate: GoString, studyDesc: GoString)

  datatype Config = Config(pacs: PACSConfig, app: AppConfig, queue: QueueConfig,
                           emergencyTemplates: seq<PatientTemplate>, lastModified: Instant, version: int)

  /** `filepath.Join` of a directory and a name. */
  function JoinPath(dir: GoString, name: GoString): (p: GoString)
    ensures HasSuffix(p, "/" + name)
  {
    HasSuffixOfAppend(dir, "/" + name);
    dir + "/" + name
  }

  const DefaultPACS := PACSConfig(false, "localhost", 104, "ORTHANC", "SMARTBOX", 30, 3, 5, false)

  function DefaultTemplates(): seq<PatientTemplate>
  {
    [ PatientTemplate("emergency-male", "emergency_male", "Notfall männlich", "Notfall^Männlich",
                      "EMERGENCY-M", "M", "TODAY-40Y", "Notfalluntersuchung"),
      PatientTemplate("emergency-female", "emergency_female", "Notfall weiblich", "Notfall^Weiblich",
                      "EMERGENCY-F", "F", "TODAY-40Y", "Notfalluntersuchung"),
      PatientTemplate("emergency-child", "emergency_child", "Notfall Kind", "Notfall^Kind",
                      "EMERGENCY-C", "O", "TODAY-10Y", "Notfalluntersuchung Kind") ]
  }

  /** `DefaultConfig`; the home directory and the clock are parameters. */
  function DefaultConfig(homeDir: GoString, now: Instant): Config
  {
    Config(DefaultPACS,
           AppConfig("de", false, true, JoinPath(JoinPath(homeDir, "SmartBoxNext"), "DICOM"), "info", false),
           QueueConfig(2, 5, 1000, JoinPath(JoinPath(homeDir, "SmartBoxNext"), "Queue")),
           DefaultTemplates(), now, 1)
  }

  /** The defaults: version 1, PACS off on port 104 with three retries, room
      for 1000 queued uploads, and the three emergency templates, whose IDs
      differ and whose birth dates are the two relative forms the templates
      may use. */
  lemma DefaultConfigValues(homeDir: GoString, now: Instant)
    ensures var c := DefaultConfig(homeDir, now);
            && c.version == 1 && !c.pacs.enabled && c.pacs.port == 104 && c.pacs.maxRetries == 3
            && c.pacs.retryDelay == 5 && c.queue.maxQueueSize == 1000
            && |c.emergencyTemplates| == 3
            && c.emergencyTemplates[0].id == "emergency-male"
            && c.emergencyTemplates[1].id == "emergency-female"
            && c.emergencyTemplates[2].id == "emergency-child"
            && (forall i, j | 0 <= i < j < 3 :: c.emergencyTemplates[i].id != c.emergencyTemplates[j].id)
            && (forall i | 0 <= i < 3 :: c.emergencyTemplates[i].birthDate in {"TODAY-40Y", "TODAY-10Y"})
  {
    var ts := DefaultTemplates();
    assert ts[0].id[10] == 'm' && ts[1].id[10] == 'f' && ts[2].id[10] == 'c';
  }

  // ---------------------------------------------------------------------------
  // The disk and the load order

  /** `saveToPath`: a successful write leaves `c` at `path`; a failed one
      (the directory, the marshalling, the write or the rename) changes nothing. */
  function Stored(disk: map<GoString, Config>, path: GoString, c: Config, writeOk: GoString -> bool): map<GoString, Config>
  {
    if writeOk(path) then disk[path := c] else disk
  }

  /** The disk after `saveToPath` on each of `paths`, in order. */
  function StoredAll(disk: map<GoString, Config>, paths: seq<GoString>, c: Config, writeOk: GoString -> bool)
    : map<GoString, Config>
  {
    if paths == [] then disk
    else Stored(StoredAll(disk, paths[..|paths| - 1], c, writeOk), paths[|paths| - 1], c, writeOk)
  }

  /** Saving to several paths: each writable one holds `c`, every other file is as it was. */
  lemma {:induction false} StoredAllEffect(disk: map<GoString, Config>, paths: seq<GoString>, c: Config,
                                           writeOk: GoString -> bool, p: GoString)
    ensures var d := StoredAll(disk, paths, c, writeOk);
            && (p in paths && writeOk(p) ==> p in d && d[p] == c)
            && (!(p in paths && writeOk(p)) ==> (p in d <==> p in disk) && (p in d ==> d[p] == disk[p]))
    decreases |paths|
  {
    if paths != [] {
      var init := paths[..|paths| - 1];
      StoredAllEffect(disk, init, c, writeOk, p);
      assert p in paths <==> p in init || p == paths[|paths| - 1] by {
        assert paths == init + [paths[|paths| - 1]];
      }
    }
  }

  /** The file `Load` takes its configuration from: the primary path if it
      holds one, else the first backup that does; `None` when none does. */
  function LoadSource(primary: GoString, backups: seq<GoString>, disk: map<GoString, Config>): (r: Option<GoString>)
    ensures r.Some? ==> r.value in disk
  {
    if primary in disk then Some(primary) else FirstPresent(backups, disk)
  }

  function FirstPresent(paths: seq<GoString>, disk: map<GoString, Config>): (r: Option<GoString>)
    ensures r.Some? ==> r.value in disk
  {
    if paths == [] then None
    else if paths[0] in disk then Some(paths[0])
    else FirstPresent(paths[1..], disk)
  }

  /** The first readable file wins: it is the primary path or a backup, it
      holds a configuration, and every path tried before it does not. No
      source at all means no path holds one. */
  lemma {:induction false} FirstPresentIsFirst(paths: seq<GoString>, disk: map<GoString, Config>)
    ensures var r := FirstPresent(paths, disk);
            && (r.None? <==> forall i | 0 <= i < |paths| :: paths[i] !in disk)
            && (r.Some? ==> exists k | 0 <= k < |paths| :: paths[k] == r.value && r.value in disk
                              && forall i | 0 <= i < k :: paths[i] !in disk)
    decreases |paths|
  {
    if paths != [] {
      FirstPresentIsFirst(paths[1..], disk);
      var r := FirstPresent(paths[1..], disk);
      if paths[0] !in disk {
        if r.Some? {
          var k :| 0 <= k < |paths[1..]| && paths[1..][k] == r.value && r.value in disk
                   && forall i | 0 <= i < k :: paths[1..][i] !in disk;
          assert paths[k + 1] == r.value;
          assert forall i | 0 <= i < k + 1 :: paths[i] !in disk by {
            forall i | 0 <= i < k + 1 ensures paths[i] !in disk {
              if i > 0 { assert paths[i] == paths[1..][i - 1]; }
            }
          }
        } else {
          assert forall i | 0 <= i < |paths| :: paths[i] !in disk by {
            forall i | 0 <= i < |paths| ensures paths[i] !in disk {
              if i > 0 { assert paths[i] == paths[1..][i - 1]; }
            }
          }
        }
      } else {
        assert paths[0] == FirstPresent(paths, disk).value;
      }
    }
  }

  /** The configuration an import leaves: a strictly newer version replaces
      the current one and is then saved, which stamps it and adds one to its
      version; anything else leaves the current configuration. */
  function Imported(current: Config, incoming: Config, now: Instant): Config
  {
    if incoming.version > current.version
    then incoming.(lastModified := now, version := incoming.version + 1)
    else current
  }

  /** The import gate: accepted exactly when newer, then version + 1 of the
      incoming one; versions never go down. */
  lemma ImportGate(current: Config, incoming: Config, now: Instant)
    ensures var r := Imported(current, incoming, now);
            && (incoming.version > current.version ==> r.version == incoming.version + 1
                                                       && r.pacs == incoming.pacs
                                                       && r.emergencyTemplates == incoming.emergencyTemplates)
            && (incoming.version <= current.version ==> r == current)
            && r.version >= current.version
  {
  }

  // ---------------------------------------------------------------------------
  // The manager

  class ConfigManager {
    var config: Config
    var configPath: GoString
    var backupPaths: seq<GoString>
    /** The files that hold a readable configuration, by path. */
    var disk: map<GoString, Config>

    /** `NewConfigManager`: the defaults, the two backup paths, then `Load`. */
    constructor (primaryPath: GoString, homeDir: GoString, tempDir: GoString, now: Instant,
                 files: map<GoString, Config>, writeOk: GoString -> bool)
      ensures configPath == primaryPath
      ensures backupPaths == [JoinPath(JoinPath(homeDir, ".smartbox-next"), "config.json"),
                              JoinPath(tempDir, "smartbox-next-config.json")]
      ensures var src := LoadSource(primaryPath, backupPaths, files);
              config == (if src.Some? then files[src.value] else DefaultConfig(homeDir, now))
      ensures primaryPath in files ==> disk == files
      ensures primaryPath !in files && LoadSource(primaryPath, backupPaths, files).Some? ==>
                disk == Stored(files, primaryPath, config, writeOk)
      ensures LoadSource(primaryPath, backupPaths, files).None? ==>
                disk == StoredAll(files, [primaryPath] + backupPaths, config, writeOk)
    {
      configPath := primaryPath;
      config := DefaultConfig(homeDir, now);
      backupPaths := [JoinPath(JoinPath(homeDir, ".smartbox-next"), "config.json"),
                      JoinPath(tempDir, "smartbox-next-config.json")];
      disk := files;
      new;
      var _ := Load(homeDir, now, writeOk);
    }

    /** `GetPACS`. */
    function GetPACS(): PACSConfig
      reads this
    {
      config.pacs
    }

    /** `saveToPath`. */
    method SaveToPath(path: GoString, writeOk: GoString -> bool)
      modifies this
      ensures disk == Stored(old(disk), path, config, writeOk)
      ensures config == old(config) && configPath == old(configPath) && backupPaths == old(backupPaths)
    {
      if writeOk(path) {
        disk := disk[path := config];
      }
    }

    /** `save`: the primary path, then every backup; the result is always
        nil, whichever writes fail. */
    method SaveAll(writeOk: GoString -> bool) returns (err: Option<GoString>)
      modifies this
      ensures err.None?
      ensures disk == StoredAll(old(disk), [configPath] + backupPaths, config, writeOk)
      ensures config == old(config) && configPath == old(configPath) && backupPaths == old(backupPaths)
    {
      SaveToPath(configPath, writeOk);
      var i := 0;
      while i < |backupPaths|
        invariant 0 <= i <= |backupPaths|
        invariant config == old(config) && configPath == old(configPath) && backupPaths == old(backupPaths)
        invariant disk == StoredAll(old(disk), ([configPath] + backupPaths)[..i + 1], config, writeOk)
      {
        assert ([configPath] + backupPaths)[..i + 2][..i + 1] == ([configPath] + backupPaths)[..i + 1];
        SaveToPath(backupPaths[i], writeOk);
        i := i + 1;
      }
      assert ([configPath] + backupPaths)[..i + 1] == [configPath] + backupPaths;
      return None;
    }

    /** `Load`: the primary path, else the first readable backup (which is
        then copied to the primary path), else the defaults, saved everywhere.
        It never reports an error. */
    method Load(homeDir: GoString, now: Instant, writeOk: GoString -> bool) returns (err: Option<GoString>)
      modifies this
      ensures err.None?
      ensures configPath == old(configPath) && backupPaths == old(backupPaths)
      ensures var src := LoadSource(configPath, backupPaths, old(disk));
              config == (if src.Some? then old(disk)[src.value] else DefaultConfig(homeDir, now))
      ensures configPath in old(disk) ==> disk == old(disk)
      ensures configPath !in old(disk) && LoadSource(configPath, backupPaths, old(disk)).Some? ==>
                disk == Stored(old(disk), configPath, config, writeOk)
      ensures LoadSource(configPath, backupPaths, old(disk)).None? ==>
                disk == StoredAll(old(disk), [configPath] + backupPaths, config, writeOk)
    {
      if configPath in disk {
        config := disk[configPath];
        return None;
      }
      var i := 0;
      while i < |backupPaths|
        invariant 0 <= i <= |backupPaths|
        invariant disk == old(disk) && config == old(config)
        invariant FirstPresent(backupPaths, disk) == FirstPresent(backupPaths[i..], disk)
      {
        if backupPaths[i] in disk {
          config := disk[backupPaths[i]];
          SaveToPath(configPath, writeOk);
          return None;
        }
        assert backupPaths[i..][1..] == backupPaths[i + 1..];
        i := i + 1;
      }
      config := DefaultConfig(homeDir, now);
      err := SaveAll(writeOk);
    }

    /** `Save`: stamps the configuration, adds one to its version and saves it everywhere. */
    method Save(now: Instant, writeOk: GoString -> bool) returns (err: Option<GoString>)
      modifies this
      ensures err.None?
      ensures config == old(config).(lastModified := now, version := old(config).version + 1)
      ensures disk == StoredAll(old(disk), [configPath] + backupPaths, config, writeOk)
      ensures configPath == old(configPath) && backupPaths == old(backupPaths)
    {
      config := config.(lastModified := now, version := config.version + 1);
      err := SaveAll(writeOk);
    }

    /** `SetPACS`: replaces the PACS section only, then saves, bumping the version. */
    method SetPACS(pacs: PACSConfig, now: Instant, writeOk: GoString -> bool) returns (err: Option<GoString>)
      modifies this
      ensures err.None?
      ensures config == old(config).(pacs := pacs, lastModified := now, version := old(config).version + 1)
      ensures disk == StoredAll(old(disk), [configPath] + backupPaths, config, writeOk)
      ensures configPath == old(configPath) && backupPaths == old(backupPaths)
    {
      config := config.(pacs := pacs);
      err := Save(now, writeOk);
    }

    /** `ImportFromRemote`; `incoming` is the result of unmarshalling the
        data (`None` when it is not valid JSON). */
    method ImportFromRemote(incoming: Option<Config>, now: Instant, writeOk: GoString -> bool)
      returns (err: Option<GoString>)
      modifies this
      ensures err.Some? <==> incoming.None?
      ensures incoming.None? ==> config == old(config) && disk == old(disk)
      ensures incoming.Some? ==> config == Imported(old(config), incoming.value, now)
      ensures incoming.Some? && incoming.value.version <= old(config).version ==> disk == old(disk)
      ensures incoming.Some? && incoming.value.version > old(config).version ==>
                disk == StoredAll(old(disk), [configPath] + backupPaths, config, writeOk)
      ensures configPath == old(configPath) && backupPaths == old(backupPaths)
    {
      if incoming.None? {
        return Some("invalid character in JSON input");
      }
      if incoming.value.version > config.version {
        config := incoming.value;
        err := Save(now, writeOk);
      } else {
        err := None;
      }
    }

    /** `GetEmergencyTemplates`: a fresh slice with the same templates, so
        that changing it does not change the configuration. */
    method GetEmergencyTemplates() returns (templates: array<PatientTemplate>)
      ensures fresh(templates)
      ensures templates[..] == config.emergencyTemplates
    {
      templates := new PatientTemplate[|config.emergencyTemplates|](i requires 0 <= i < |config.emergencyTemplates| reads this => config.emergencyTemplates[i]);
    }
  }
}
