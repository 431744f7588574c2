/**
 * The dependency catalogue of backend/utils/dependencyUtils.js, the
 * selection of the active application's dependencies, and the local
 * installed-and-version check. Running a command is the parameter `exec`:
 * it gives the command's standard output, or `None` when the command fails.
 */
module DependencyUtils {
  import opened Wrappers
  import opened Text
  import opened Seqs
  import Config

  /** How the version is taken from the trimmed output of the local check. */
  datatype Parser =
    | FirstLine                 // `out.split('\n')[0]`
    | StripPrefix(prefix: string) // `out.replace(/^prefix/, '')`

  /** The local check: the program, its version argument when it differs from `--version`, and the parser. */
  datatype LocalCheck = LocalCheck(program: string, versionArg: Option<string>, parser: Parser)

  /** One entry of the catalogue: its name, the shell command used over SSH, and the local check. */
  datatype Dependency = Dependency(name: string, cmd: string, local: LocalCheck)

  function Plain(program: string): LocalCheck {
    LocalCheck(program, None, FirstLine)
  }

  function WithArg(program: string, arg: string): LocalCheck {
    LocalCheck(program, Some(arg), FirstLine)
  }

  const ALL_DEPENDENCIES: seq<Dependency> := [
    Dependency("git", "git --version", Plain("git")),
    Dependency("node", "node --version", Plain("node")),
    Dependency("npm", "npm --version", Plain("npm")),
    Dependency("gcc", "gcc --version | head -n 1", WithArg("gcc", "--version")),
    Dependency("gpp", "g++ --version | head -n 1", WithArg("g++", "--version")),
    Dependency("make", "make --version | head -n 1", WithArg("make", "--version")),
    Dependency("python3", "python3 --version", WithArg("python3", "--version")),
    Dependency("pip3", "pip3 --version", WithArg("pip3", "--version")),
    Dependency("ffmpeg", "ffmpeg -version | head -n 1", WithArg("ffmpeg", "-version")),
    Dependency("certbot", "certbot --version", WithArg("certbot", "--version")),
    Dependency("nginx", "nginx -v 2>&1 | grep -o \"[0-9.]\\+\"",
               LocalCheck("nginx", Some("-v"), StripPrefix("nginx version: "))),
    Dependency("apache2", "apache2 -v 2>&1 | grep \"Server version\"", WithArg("apache2", "-v")),
    Dependency("docker", "docker --version", Plain("docker")),
    Dependency("docker-compose",
               "docker-compose --version 2>/dev/null | grep -o \"[0-9.]\\+\" || docker compose version 2>/dev/null | grep -o \"[0-9.]\\+\"",
               Plain("docker-compose")),
    Dependency("pm2", "pm2 --version", Plain("pm2"))
  ]

  /** The catalogue's names, in its order. */
  function Names(deps: seq<Dependency>): (names: seq<string>)
    ensures |names| == |deps| && forall i :: 0 <= i < |deps| ==> names[i] == deps[i].name
  {
    seq(|deps|, i requires 0 <= i < |deps| => deps[i].name)
  }

  /** The entries of `all` whose name the list holds, in their order; a missing list selects none. */
  function Select(all: seq<Dependency>, dep: Option<seq<string>>): (r: seq<Dependency>)
    ensures IsSubsequence(r, all)
    ensures forall d :: d in r <==> d in all && dep.Some? && d.name in dep.value
    ensures dep.None? ==> r == []
  {
    var names := dep.GetOr([]);
    var kept := Filter(all, (d: Dependency) => d.name in names);
    assert forall d :: d in all ==> exists i :: 0 <= i < |all| && all[i] == d;
    forall d | d in kept ensures d in all {
      SubsequenceMembers(kept, all, d);
    }
    kept
  }

  /** `getAppDependencies`: the catalogue entries the active application lists. */
  function AppDependencies(dep: Option<seq<string>>): (r: seq<Dependency>)
    ensures IsSubsequence(r, ALL_DEPENDENCIES)
    ensures forall d :: d in r <==> d in ALL_DEPENDENCIES && dep.Some? && d.name in dep.value
  {
    Select(ALL_DEPENDENCIES, dep)
  }

  /** The SFU lists every catalogue entry, so it gets the whole catalogue in its order. */
  lemma SfuGetsEverything()
    ensures AppDependencies(Some(Config.DEFAULT_DEPS + Config.SFU_EXTRA_DEPS)) == ALL_DEPENDENCIES
  {
    var names := Config.DEFAULT_DEPS + Config.SFU_EXTRA_DEPS;
    assert forall i :: 0 <= i < |ALL_DEPENDENCIES| ==> ALL_DEPENDENCIES[i].name in names;
    FilterOfAccepted(ALL_DEPENDENCIES, (d: Dependency) => d.name in names);
  }

  /** The other applications get no entry of the SFU's build tools. */
  lemma DefaultsSkipBuildTools()
    ensures forall d :: d in AppDependencies(Some(Config.DEFAULT_DEPS)) ==> d.name !in Config.SFU_EXTRA_DEPS
  {
    assert forall n :: n in Config.DEFAULT_DEPS ==> n !in Config.SFU_EXTRA_DEPS;
  }

  /** `line` is the first line of `out`: a newline-free prefix that ends where `out` ends or at a newline. */
  predicate IsFirstLine(out: string, line: string) {
    && '\n' !in line
    && StartsWith(out, line)
    && (|line| == |out| || out[|line|] == '\n')
  }

  /** A text has only one first line. */
  lemma FirstLineUnique(out: string, a: string, b: string)
    requires IsFirstLine(out, a) && IsFirstLine(out, b)
    ensures a == b
  {
  }

  /** Applies a parser to the trimmed output. */
  function Parse(parser: Parser, out: string): (version: string)
    ensures parser.FirstLine? ==> IsFirstLine(out, version)
    ensures parser.StripPrefix? && StartsWith(out, parser.prefix) ==> parser.prefix + version == out
    ensures parser.StripPrefix? && !StartsWith(out, parser.prefix) ==> version == out
  {
    match parser
    case FirstLine =>
      SplitFirst(out, '\n');
      Split(out, '\n')[0]
    case StripPrefix(prefix) => if StartsWith(out, prefix) then out[|prefix|..] else out
  }

  /** The outcome of a local check. */
  datatype DependencyStatus = DependencyStatus(installed: bool, version: Option<string>)

  /**
   * `checkDependency`: runs `<cmd> <versionArg>` (the argument defaulting to
   * `--version`); success is installed with the parsed trimmed output as
   * the version, failure is not installed with no version.
   */
  function CheckDependency(cmd: string, versionArg: Option<string>, parser: Parser, exec: string -> Option<string>)
    : (r: DependencyStatus)
    ensures var out := exec(cmd + " " + versionArg.GetOr("--version"));
      && (r.installed <==> out.Some?)
      && (!r.installed ==> r.version.None?)
      && (r.installed ==> r.version == Some(Parse(parser, Trim(out.value))))
  {
    match exec(cmd + " " + versionArg.GetOr("--version"))
    case None => DependencyStatus(false, None)
    case Some(out) => DependencyStatus(true, Some(Parse(parser, Trim(out))))
  }

  /** With the default parser a successful check reports the first line of the trimmed output. */
  lemma DefaultVersionIsFirstLine(cmd: string, exec: string -> Option<string>, out: string)
    requires exec(cmd + " --version") == Some(out)
    ensures var r := CheckDependency(cmd, None, FirstLine, exec);
      && r.installed && r.version.Some? && IsFirstLine(Trim(out), r.version.value)
      && r.version.value == (if '\n' in Trim(out) then Trim(out)[..IndexOf(Trim(out), '\n')] else Trim(out))
  {
    assert cmd + " " + "--version" == cmd + " --version";
    FirstLineParsed(Trim(out));
  }

  /** The default parser gives the text up to the first newline, or the whole text when it has none. */
  lemma FirstLineParsed(out: string)
    ensures Parse(FirstLine, out) == (if '\n' in out then out[..IndexOf(out, '\n')] else out)
  {
    SplitFirst(out, '\n');
  }

  /** The check of a catalogue entry runs its local program with its argument. */
  function CheckEntry(d: Dependency, exec: string -> Option<string>): DependencyStatus {
    CheckDependency(d.local.program, d.local.versionArg, d.local.parser, exec)
  }
}
