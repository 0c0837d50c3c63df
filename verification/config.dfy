/**
 * The configuration of cfcr (config/config.go): the decoded `Config` record,
 * the checks `Validate` runs on it, and the pure core of `GetConfigFiles`,
 * which concatenates the YAML files of a directory before they are decoded.
 */
module Config {
  import opened Wrappers
  import opened GoStrings

  datatype Logging = Logging(level: string, humanReadable: bool)
  datatype OvhAuth = OvhAuth(appKey: string, appSecret: string, consumerKey: string)
  datatype Auth = Auth(cloudflareToken: string, ovh: OvhAuth)
  datatype Checks = Checks(baseDomain: string, frequency: string, domains: seq<string>)
  datatype MetricsServer = MetricsServer(address: string, port: string)
  datatype Metrics = Metrics(enabled: bool, server: MetricsServer)

  /** The decoded configuration, field for field. */
  datatype Config = Config(logging: Logging, auth: Auth, checks: Checks, metrics: Metrics)

  /** Go's zero value `Config{}`. */
  const EmptyConfig: Config :=
    Config(Logging("", false), Auth("", OvhAuth("", "", "")), Checks("", "", []),
           Metrics(false, MetricsServer("", "")))

  /** The frequencies a check may run at, in the order the source lists them. */
  const ValidFrequencies: seq<string> := ["debug", "hourly", "daily", "weekly", "monthly"]

  datatype ConfigError =
    | OpenError                     // os.Open failed
    | StatError                     // File.Stat failed
    | NotADirectory(path: string)   // the configuration path is a plain file
    | ReadDirError                  // ioutil.ReadDir failed
    | ReadFileError(name: string)   // os.ReadFile failed on a YAML file
    | LogLevelError                 // zerolog.ParseLevel refused the level
    | MissingCloudflareToken
    | InvalidFrequency(frequency: string)

  /** isFreqValid: a linear search of the frequency whitelist. */
  method IsFreqValid(f: string) returns (ok: bool)
    ensures ok <==> f in ValidFrequencies
  {
    for i := 0 to |ValidFrequencies|
      invariant forall j :: 0 <= j < i ==> ValidFrequencies[j] != f
    {
      if f == ValidFrequencies[i] {
        return true;
      }
    }
    return false;
  }

  lemma FrequencyExamples()
    ensures "hourly" in ValidFrequencies && "daily" in ValidFrequencies
    ensures "weekly" in ValidFrequencies && "monthly" in ValidFrequencies
    ensures "" !in ValidFrequencies && "foobar" !in ValidFrequencies
  {
  }

  /** isYamlFile: the name ends in ".yaml" or ".yml". */
  predicate IsYamlFile(name: string)
  {
    HasSuffix(name, ".yaml") || HasSuffix(name, ".yml")
  }

  /** Every name made of a stem and a YAML extension is accepted ... */
  lemma YamlExtensionAccepted(stem: string)
    ensures IsYamlFile(stem + ".yaml") && IsYamlFile(stem + ".yml")
  {
    SuffixOfConcat(stem, ".yaml");
    SuffixOfConcat(stem, ".yml");
  }

  /** ... and every accepted name is a stem followed by one of the two extensions. */
  lemma YamlFileHasExtension(name: string)
    requires IsYamlFile(name)
    ensures HasSuffix(name, ".yaml") ==> name == name[..|name| - 5] + ".yaml"
    ensures !HasSuffix(name, ".yaml") ==> |name| >= 4 && name == name[..|name| - 4] + ".yml"
  {
    if HasSuffix(name, ".yaml") {
      assert name == name[..|name| - 5] + name[|name| - 5..];
    } else {
      assert name == name[..|name| - 4] + name[|name| - 4..];
    }
  }

  lemma YamlFileExamples()
    ensures IsYamlFile("foo.yaml") && IsYamlFile("foo.yml")
    ensures !IsYamlFile("foo.txt") && !IsYamlFile("")
  {
    YamlExtensionAccepted("foo");
    assert "foo.yaml" == "foo" + ".yaml";
    assert "foo.yml" == "foo" + ".yml";
  }

  /**
   * The checks of `Validate`, in the order the source runs them; `parseLevel`
   * stands for zerolog.ParseLevel succeeding on a level string.
   */
  function FirstFailure(c: Config, parseLevel: string -> bool): Option<ConfigError>
  {
    if !parseLevel(c.logging.level) then Some(LogLevelError)
    else if c.auth.cloudflareToken == "" then Some(MissingCloudflareToken)
    else if c.checks.frequency !in ValidFrequencies then Some(InvalidFrequency(c.checks.frequency))
    else None
  }

  /** Validate: the first failing check, or None when the configuration is usable. */
  method Validate(c: Config, parseLevel: string -> bool) returns (err: Option<ConfigError>)
    ensures err == FirstFailure(c, parseLevel)
    ensures err == None <==>
      parseLevel(c.logging.level) && c.auth.cloudflareToken != "" && c.checks.frequency in ValidFrequencies
    ensures err == Some(LogLevelError) <==> !parseLevel(c.logging.level)
    ensures err == Some(MissingCloudflareToken) <==>
      parseLevel(c.logging.level) && c.auth.cloudflareToken == ""
  {
    if !parseLevel(c.logging.level) {
      return Some(LogLevelError);
    }
    if c.auth.cloudflareToken == "" {
      return Some(MissingCloudflareToken);
    }
    var ok := IsFreqValid(c.checks.frequency);
    if !ok {
      return Some(InvalidFrequency(c.checks.frequency));
    }
    return None;
  }

  /** The zero configuration is refused, whatever zerolog thinks of the empty level. */
  lemma EmptyConfigRejected(parseLevel: string -> bool)
    ensures FirstFailure(EmptyConfig, parseLevel).Some?
    ensures parseLevel("") ==> FirstFailure(EmptyConfig, parseLevel) == Some(MissingCloudflareToken)
  {
  }

  // ---------------------------------------------------------------------------
  // GetConfigFiles

  newtype byte = x: int | 0 <= x < 256

  const Newline: byte := 10

  /** What os.ReadFile gives for one directory entry. */
  datatype FileRead = Contents(bytes: seq<byte>) | ReadFailed

  datatype DirEntry = DirEntry(name: string, read: FileRead)

  /**
   * What os.Open, File.Stat and ioutil.ReadDir find at the configuration path.
   * ioutil.ReadDir lists the entries sorted by file name; `Listing` takes them in
   * any order, so every statement about a listing covers the sorted one.
   */
  datatype DirProbe = OpenFailed | StatFailed | PlainFile | ReadDirFailed | Listing(entries: seq<DirEntry>)

  /**
   * The buffer built from the listed files: each YAML file's content followed by a
   * newline, in listing order; the first YAML file that cannot be read is the error.
   */
  function YamlData(entries: seq<DirEntry>): Result<seq<byte>, ConfigError>
  {
    if entries == [] then Ok([])
    else
      var e := entries[|entries| - 1];
      match YamlData(entries[..|entries| - 1])
      case Err(x) => Err(x)
      case Ok(prefix) =>
        if !IsYamlFile(e.name) then Ok(prefix)
        else match e.read
          case ReadFailed => Err(ReadFileError(e.name))
          case Contents(b) => Ok(prefix + b + [Newline])
  }

  /** The names handed to os.ReadFile: YAML files up to and including the first unreadable one. */
  function ReadAttempts(entries: seq<DirEntry>): seq<string>
  {
    if entries == [] then []
    else
      var e := entries[|entries| - 1];
      var before := entries[..|entries| - 1];
      if YamlData(before).Err? || !IsYamlFile(e.name) then ReadAttempts(before)
      else ReadAttempts(before) + [e.name]
  }

  /**
   * GetConfigFiles, without the YAML decoding: the concatenated buffer (or the
   * error) and the names of the files it tried to read, in order.
   */
  method GetConfigFiles(path: string, probe: DirProbe) returns (r: Result<seq<byte>, ConfigError>, read: seq<string>)
    ensures probe.OpenFailed? ==> r == Err(OpenError) && read == []
    ensures probe.StatFailed? ==> r == Err(StatError) && read == []
    ensures probe.PlainFile? ==> r == Err(NotADirectory(path)) && read == []
    ensures probe.ReadDirFailed? ==> r == Err(ReadDirError) && read == []
    ensures probe.Listing? ==> r == YamlData(probe.entries) && read == ReadAttempts(probe.entries)
  {
    match probe {
      case OpenFailed => return Err(OpenError), [];
      case StatFailed => return Err(StatError), [];
      case PlainFile => return Err(NotADirectory(path)), [];
      case ReadDirFailed => return Err(ReadDirError), [];
      case Listing(files) =>
        var data: seq<byte> := [];
        read := [];
        for i := 0 to |files|
          invariant YamlData(files[..i]) == Ok(data)
          invariant ReadAttempts(files[..i]) == read
        {
          ListingStep(files, i);
          var file := files[i];
          if !IsYamlFile(file.name) {
            continue;
          }
          read := read + [file.name];
          match file.read {
            case ReadFailed =>
              PrefixErrorPersists(files, i + 1);
              return Err(ReadFileError(file.name)), read;
            case Contents(local) =>
              data := data + local + [Newline];
          }
        }
        assert files[..|files|] == files;
        return Ok(data), read;
    }
  }

  /** One more entry of a listing whose prefix read cleanly. */
  lemma ListingStep(files: seq<DirEntry>, i: nat)
    requires i < |files| && YamlData(files[..i]).Ok?
    ensures !IsYamlFile(files[i].name) ==>
      YamlData(files[..i + 1]) == YamlData(files[..i]) && ReadAttempts(files[..i + 1]) == ReadAttempts(files[..i])
    ensures IsYamlFile(files[i].name) ==> ReadAttempts(files[..i + 1]) == ReadAttempts(files[..i]) + [files[i].name]
    ensures IsYamlFile(files[i].name) && files[i].read.ReadFailed? ==>
      YamlData(files[..i + 1]) == Err(ReadFileError(files[i].name))
    ensures IsYamlFile(files[i].name) && files[i].read.Contents? ==>
      YamlData(files[..i + 1]) == Ok(YamlData(files[..i]).value + files[i].read.bytes + [Newline])
  {
    assert files[..i + 1][..i] == files[..i];
  }

  /** Once a prefix of the listing has failed, the whole listing fails the same way and reads nothing more. */
  lemma {:induction false} PrefixErrorPersists(entries: seq<DirEntry>, k: nat)
    requires k <= |entries|
    requires YamlData(entries[..k]).Err?
    ensures YamlData(entries) == YamlData(entries[..k])
    ensures ReadAttempts(entries) == ReadAttempts(entries[..k])
    decreases |entries| - k
  {
    if k < |entries| {
      var next := entries[..k + 1];
      assert next[..k] == entries[..k];
      PrefixErrorPersists(entries, k + 1);
    } else {
      assert entries[..k] == entries;
    }
  }

  /** Total size of the readable YAML files, one extra byte each for the newline. */
  function YamlSize(entries: seq<DirEntry>): nat
  {
    if entries == [] then 0
    else
      var e := entries[|entries| - 1];
      YamlSize(entries[..|entries| - 1]) +
        (if IsYamlFile(e.name) && e.read.Contents? then |e.read.bytes| + 1 else 0)
  }

  /** When every YAML file is readable, the buffer is exactly as long as their contents plus one newline each. */
  lemma {:induction false} YamlDataLength(entries: seq<DirEntry>)
    requires forall i :: 0 <= i < |entries| && IsYamlFile(entries[i].name) ==> entries[i].read.Contents?
    ensures YamlData(entries).Ok?
    ensures |YamlData(entries).value| == YamlSize(entries)
  {
    if entries != [] {
      YamlDataLength(entries[..|entries| - 1]);
    }
  }

  /** The YAML files of a listing, in order. */
  function YamlOnly(entries: seq<DirEntry>): (r: seq<DirEntry>)
    ensures forall i :: 0 <= i < |r| ==> IsYamlFile(r[i].name)
  {
    if entries == [] then []
    else
      var e := entries[|entries| - 1];
      YamlOnly(entries[..|entries| - 1]) + (if IsYamlFile(e.name) then [e] else [])
  }

  /** Files that are not YAML contribute nothing: dropping them changes neither the buffer nor the reads. */
  lemma {:induction false} NonYamlIgnored(entries: seq<DirEntry>)
    ensures YamlData(YamlOnly(entries)) == YamlData(entries)
    ensures ReadAttempts(YamlOnly(entries)) == ReadAttempts(entries)
  {
    if entries != [] {
      var before := entries[..|entries| - 1];
      var e := entries[|entries| - 1];
      NonYamlIgnored(before);
      if IsYamlFile(e.name) {
        var y := YamlOnly(before) + [e];
        assert YamlOnly(entries) == y;
        assert y[..|y| - 1] == YamlOnly(before);
        assert y[|y| - 1] == e;
      } else {
        assert YamlOnly(entries) == YamlOnly(before);
      }
    }
  }
}
