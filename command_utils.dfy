/**
 * Command resolution of backend/utils/commandUtils.js: three tables of shell
 * commands (pm2, docker, and mode-independent server commands) and the rule
 * that picks one for a command type and a management mode.
 */
module CommandUtils {
  import opened Wrappers
  import opened Text
  import opened Config

  const LOGS_CHUNK_SIZE: nat := 1000
  const REALTIME_LOGS_CHUNK_SIZE: nat := 300

  /** The steps of the pm2 update, run one after the other. */
  function Pm2UpdateSteps(s: Settings): seq<string> {
    ["cd " + s.appDefaults.dir, "git pull", "npm ci", "pm2 restart " + s.appName]
  }

  /** The steps of the docker update, run one after the other. */
  function DockerUpdateSteps(s: Settings): seq<string> {
    [ "cd " + s.appDefaults.dir, "git pull", "docker-compose down", "docker-compose pull",
      "docker image prune -f", "docker-compose up -d" ]
  }

  /** The command types the pm2 and docker tables both hold. */
  const MODE_KINDS: set<string> := {"restart", "logs", "realTimeLogs", "status", "update"}

  /** The command types of the server table. */
  const GENERIC_KINDS: set<string> := {"checkServerUpdate", "serverUpdate", "serverReboot"}

  /** `pm2Commands[kind](config)`, or nothing for a type the table lacks. */
  function Pm2Command(kind: string, s: Settings): (r: Option<string>)
    ensures r.Some? <==> kind in MODE_KINDS
    ensures r.Some? && kind != "update" ==> StartsWith(r.value, "pm2 ")
  {
    if kind == "restart" then Some("pm2 restart " + s.appName)
    else if kind == "logs" then Some("pm2 logs " + s.appName + " --lines " + NatToString(LOGS_CHUNK_SIZE) + " --nostream")
    else if kind == "realTimeLogs" then Some("pm2 logs " + s.appName + " --lines " + NatToString(REALTIME_LOGS_CHUNK_SIZE))
    else if kind == "status" then Some("pm2 show " + s.appName)
    else if kind == "update" then Some(Join(Pm2UpdateSteps(s), " && "))
    else None
  }

  /** `dockerCommands[kind](config)`, or nothing for a type the table lacks. */
  function DockerCommand(kind: string, s: Settings): (r: Option<string>)
    ensures r.Some? <==> kind in MODE_KINDS
    ensures r.Some? && kind != "update" ==> StartsWith(r.value, "docker ")
  {
    if kind == "restart" then Some("docker restart " + s.appName)
    else if kind == "logs" then Some("docker logs --tail " + NatToString(LOGS_CHUNK_SIZE) + " " + s.appName)
    else if kind == "realTimeLogs" then Some("docker logs -f --tail " + NatToString(REALTIME_LOGS_CHUNK_SIZE) + " " + s.appName)
    else if kind == "status" then Some("docker inspect " + s.appName + " --format \"{{json .State}}\"")
    else if kind == "update" then Some(Join(DockerUpdateSteps(s), " && "))
    else None
  }

  /** The steps of the check for pending system upgrades; the second reports zero upgrades when none match. */
  const CHECK_SERVER_UPDATE_STEPS: seq<string> :=
    [ "sudo apt-get update -y",
      "apt-get -s upgrade | grep -E \"^\\d+ upgraded\" || echo \"0 upgraded, 0 newly installed, 0 to remove, 0 not upgraded.\"" ]

  /** The steps of the system upgrade. */
  const SERVER_UPDATE_STEPS: seq<string> :=
    ["sudo apt-get update -y", "sudo apt-get upgrade -y", "sudo apt-get dist-upgrade -y", "lsb_release -a"]

  /** `genericCommands[kind]()`: the server commands, the same in every mode. */
  function GenericCommand(kind: string): (r: Option<string>)
    ensures r.Some? <==> kind in GENERIC_KINDS
  {
    if kind == "checkServerUpdate" then Some(Join(CHECK_SERVER_UPDATE_STEPS, " && "))
    else if kind == "serverUpdate" then Some(Join(SERVER_UPDATE_STEPS, " && "))
    else if kind == "serverReboot" then Some("sudo shutdown -r now || exit $?")
    else None
  }

  /** The management mode a command is resolved in: the override, else the SSH mode under `ssh`, else the app mode. */
  function EffectiveMode(modeOverride: Option<string>, s: Settings): (mode: string)
    ensures Truthy(modeOverride) ==> mode == modeOverride.value
    ensures !Truthy(modeOverride) ==> mode == (if s.appManageMode == "ssh" then s.sshManageMode else s.appManageMode)
  {
    if Truthy(modeOverride) then modeOverride.value
    else if s.appManageMode == "ssh" then s.sshManageMode
    else s.appManageMode
  }

  /** `getCommand(kind, modeOverride)`: the generic table first, then the table of the mode, else the empty text. */
  function GetCommand(kind: string, modeOverride: Option<string>, s: Settings): (cmd: string)
    ensures GenericCommand(kind).Some? ==> cmd == GenericCommand(kind).value
    ensures cmd == "" || Some(cmd) == GenericCommand(kind) || Some(cmd) == Pm2Command(kind, s)
         || Some(cmd) == DockerCommand(kind, s)
  {
    var mode := EffectiveMode(modeOverride, s);
    if GenericCommand(kind).Some? then GenericCommand(kind).value
    else if mode == "pm2" && Pm2Command(kind, s).Some? then Pm2Command(kind, s).value
    else if mode == "docker" && DockerCommand(kind, s).Some? then DockerCommand(kind, s).value
    else ""
  }

  lemma GenericCommandsNonEmpty(kind: string)
    ensures GenericCommand(kind).Some? ==> GenericCommand(kind).value != ""
  {
    JoinLength(CHECK_SERVER_UPDATE_STEPS, " && ");
    JoinLength(SERVER_UPDATE_STEPS, " && ");
  }

  lemma ModeCommandsNonEmpty(kind: string, s: Settings)
    ensures Pm2Command(kind, s).Some? ==> Pm2Command(kind, s).value != ""
    ensures DockerCommand(kind, s).Some? ==> DockerCommand(kind, s).value != ""
  {
    JoinLength(Pm2UpdateSteps(s), " && ");
    JoinLength(DockerUpdateSteps(s), " && ");
  }

  /** The server commands resolve the same whatever the mode. */
  lemma GenericCommandsIgnoreMode(kind: string, m1: Option<string>, m2: Option<string>, s1: Settings, s2: Settings)
    requires GenericCommand(kind).Some?
    ensures GetCommand(kind, m1, s1) == GetCommand(kind, m2, s2)
  {
  }

  /**
   * A command is found exactly when the type is a server command, or the mode
   * is `pm2` or `docker` and that mode's table has the type; otherwise the
   * result is the empty text.
   */
  lemma CommandFoundIffKnown(kind: string, modeOverride: Option<string>, s: Settings)
    ensures var mode := EffectiveMode(modeOverride, s);
      GetCommand(kind, modeOverride, s) != "" <==>
        || GenericCommand(kind).Some?
        || (mode == "pm2" && Pm2Command(kind, s).Some?)
        || (mode == "docker" && DockerCommand(kind, s).Some?)
  {
    GenericCommandsNonEmpty(kind);
    ModeCommandsNonEmpty(kind, s);
  }

  /** Under the default modes (`ssh` managing a `docker` app) the docker table is used. */
  lemma DefaultModeIsDocker(kind: string, s: Settings)
    requires s.appManageMode == "ssh" && s.sshManageMode == "docker"
    requires GenericCommand(kind).None?
    ensures GetCommand(kind, None, s) == (if DockerCommand(kind, s).Some? then DockerCommand(kind, s).value else "")
  {
  }

  lemma {:induction false} JoinStartsWithFirst(parts: seq<string>, sep: string)
    requires |parts| >= 2
    ensures StartsWith(Join(parts, sep), parts[0] + sep)
  {
    var rest := Join(parts[1..], sep);
    assert Join(parts, sep) == parts[0] + sep + rest;
    assert (parts[0] + sep + rest)[..|parts[0] + sep|] == parts[0] + sep;
  }

  /** Both update commands are `&&` chains whose first step changes into the application directory. */
  lemma UpdateStartsInAppDir(mode: string, s: Settings)
    requires mode == "pm2" || mode == "docker"
    ensures StartsWith(GetCommand("update", Some(mode), s), "cd " + s.appDefaults.dir + " && ")
  {
    if mode == "pm2" {
      JoinStartsWithFirst(Pm2UpdateSteps(s), " && ");
    } else {
      JoinStartsWithFirst(DockerUpdateSteps(s), " && ");
    }
  }

  /** Buffered pm2 logs ask for 1000 lines without following, real-time pm2 logs for 300. */
  lemma Pm2LogLineCounts(s: Settings)
    ensures GetCommand("logs", Some("pm2"), s) == "pm2 logs " + s.appName + " --lines 1000 --nostream"
    ensures GetCommand("realTimeLogs", Some("pm2"), s) == "pm2 logs " + s.appName + " --lines 300"
  {
    assert NatToString(1000) == "1000";
    assert NatToString(300) == "300";
  }

  /** Buffered docker logs take the last 1000 lines, real-time docker logs follow from the last 300. */
  lemma DockerLogLineCounts(s: Settings)
    ensures GetCommand("logs", Some("docker"), s) == "docker logs --tail 1000 " + s.appName
    ensures GetCommand("realTimeLogs", Some("docker"), s) == "docker logs -f --tail 300 " + s.appName
  {
    assert NatToString(1000) == "1000";
    assert NatToString(300) == "300";
  }
}
