/** Where the updater writes: the staging file of the downloaded artifact and the instance
    directory of the chosen launcher. The environment maps variable names to their values,
    a value being either valid Unicode text or not; a path is the list of segments
    `PathBuf::join` puts together, and a launcher's profile root is one segment built by
    string concatenation with backslashes, as the source does. */
module Paths {
  import opened Wrappers
  import opened Errors
  import opened Text
  import Launcher

  /** The value of an environment variable: Unicode text, or bytes that are not. */
  datatype EnvValue = Unicode(text: string) | NonUnicode

  type Env = map<string, EnvValue>

  /** A path as the list of its joined segments. */
  type Path = seq<string>

  const PackName: string := "Originalife Season 4"

  /** Whether `env::var(key)` yields a value: the variable is set and is Unicode text. */
  predicate Readable(env: Env, key: string) {
    key in env && env[key].Unicode?
  }

  /** The text of a readable variable (empty for any other). */
  function TextOf(env: Env, key: string): string {
    if Readable(env, key) then env[key].text else ""
  }

  /** The display name of an installed release, also its instance directory's name. */
  function InstanceName(tag: string): (name: string)
    ensures StartsWith(name, PackName + " - ") && |name| == |PackName| + 3 + |tag|
    ensures name[|PackName| + 3..] == tag
  {
    PackName + " - " + tag
  }

  /** `env::var(key)`: the variable's text; an error naming the variable when it is not set
      or its value is not Unicode. */
  function Var(env: Env, key: string): (r: Result<string, Error>)
    ensures r.Ok? <==> Readable(env, key)
    ensures r.Ok? ==> r.value == env[key].text
    ensures key !in env ==> r == Err(EnvVarFailed(key, NotPresent))
    ensures key in env && env[key].NonUnicode? ==> r == Err(EnvVarFailed(key, NotUnicode))
  {
    if key !in env then Err(EnvVarFailed(key, NotPresent))
    else match env[key]
      case Unicode(text) => Ok(text)
      case NonUnicode => Err(EnvVarFailed(key, NotUnicode))
  }

  /** `APPDATA / "Originalife Season 4" / tag`: the directory the download is staged in. */
  function StagingDir(env: Env, tag: string): (r: Result<Path, Error>)
    ensures r.Ok? <==> Readable(env, "APPDATA")
    ensures r.Err? ==> r.error == Var(env, "APPDATA").error
    ensures r.Ok? ==> r.value == [env["APPDATA"].text, PackName, tag]
  {
    match Var(env, "APPDATA")
    case Err(e) => Err(e)
    case Ok(appData) => Ok([appData, PackName, tag])
  }

  /** The staging directory joined with the artifact's name: where the download is written. */
  function StagingFile(env: Env, tag: string, artifact: string): (r: Result<Path, Error>)
    ensures r.Ok? <==> Readable(env, "APPDATA")
    ensures r.Err? ==> r.error == Var(env, "APPDATA").error
    ensures r.Ok? ==> r.value == [env["APPDATA"].text, PackName, tag, artifact]
  {
    match StagingDir(env, tag)
    case Err(e) => Err(e)
    case Ok(dir) => Ok(dir + [artifact])
  }

  /** Two releases never get the same staging path. */
  lemma StagingFilesSeparateReleases(env: Env, tag1: string, tag2: string, artifact: string)
    requires tag1 != tag2 && Readable(env, "APPDATA")
    ensures StagingFile(env, tag1, artifact) != StagingFile(env, tag2, artifact)
  {
  }

  /** The environment variables a launcher choice reads to find its profile root. */
  function RequiredVars(choice: string): set<string> {
    match choice
    case "1" => {"APPDATA"}
    case "2" => {"HOMEDRIVE", "HOMEPATH"}
    case "3" => {"APPDATA"}
    case _ => {}
  }

  /** The text appended to the variables to reach a launcher's instances directory. */
  function ProfileSuffix(choice: string): string {
    match choice
    case "1" => "\\ModrinthApp\\profiles"
    case "2" => "\\curseforge\\minecraft\\Instances"
    case _ => "\\PrismLauncher\\instances"
  }

  /** The directory a launcher keeps its instances in: the needed variables' text followed
      by the launcher's suffix. A variable that is missing or not Unicode is an error (for
      CurseForge, HOMEDRIVE is read first), and a string other than "1", "2", "3" is an
      invalid choice. */
  function ProfileRoot(choice: string, env: Env): (r: Result<string, Error>)
    ensures r.Ok? <==>
      choice in Launcher.Choices && forall v :: v in RequiredVars(choice) ==> Readable(env, v)
    ensures choice !in Launcher.Choices ==> r == Err(InvalidChoice)
    ensures choice in Launcher.Choices && r.Err? ==>
      r.error.EnvVarFailed? && r.error.name in RequiredVars(choice)
      && !Readable(env, r.error.name) && r.error == Var(env, r.error.name).error
    ensures choice == "2" && !Readable(env, "HOMEDRIVE") ==> r.Err? && r.error.name == "HOMEDRIVE"
    ensures r.Ok? ==>
      (|ProfileSuffix(choice)| <= |r.value|
       && r.value[|r.value| - |ProfileSuffix(choice)|..] == ProfileSuffix(choice)
       && r.value[..|r.value| - |ProfileSuffix(choice)|] ==
            (if choice == "2" then TextOf(env, "HOMEDRIVE") + TextOf(env, "HOMEPATH")
             else TextOf(env, "APPDATA")))
  {
    match choice
    case "1" =>
      (match Var(env, "APPDATA")
       case Err(e) => Err(e)
       case Ok(appData) => Ok(appData + ProfileSuffix(choice)))
    case "2" =>
      (match Var(env, "HOMEDRIVE")
       case Err(e) => Err(e)
       case Ok(drive) =>
         match Var(env, "HOMEPATH")
         case Err(e) => Err(e)
         case Ok(home) => Ok(drive + home + ProfileSuffix(choice)))
    case "3" =>
      (match Var(env, "APPDATA")
       case Err(e) => Err(e)
       case Ok(appData) => Ok(appData + ProfileSuffix(choice)))
    case _ => Err(InvalidChoice)
  }

  /** The `_ => Err("Invalid choice")` arm is unreachable for every choice the key loop
      produces. */
  lemma ChoiceNeverInvalid(choice: string, env: Env)
    requires choice in Launcher.Choices
    ensures ProfileRoot(choice, env) != Err(InvalidChoice)
  {
  }

  /** The profile root joined with the release's instance name: the install target. */
  function TargetDir(choice: string, env: Env, tag: string): (r: Result<Path, Error>)
    ensures r.Ok? <==> ProfileRoot(choice, env).Ok?
    ensures r.Err? ==> r.error == ProfileRoot(choice, env).error
    ensures r.Ok? ==> r.value == [ProfileRoot(choice, env).value, InstanceName(tag)]
  {
    match ProfileRoot(choice, env)
    case Err(e) => Err(e)
    case Ok(root) => Ok([root, InstanceName(tag)])
  }

  /** The instance name determines the tag. */
  lemma InstanceNameInjective(tag1: string, tag2: string)
    requires InstanceName(tag1) == InstanceName(tag2)
    ensures tag1 == tag2
  {
  }

  /** For a fixed launcher and environment, different releases get different target paths. */
  lemma TargetsSeparateReleases(choice: string, env: Env, tag1: string, tag2: string)
    requires tag1 != tag2 && ProfileRoot(choice, env).Ok?
    ensures TargetDir(choice, env, tag1) != TargetDir(choice, env, tag2)
  {
  }

  /** Modrinth and Prism both start from APPDATA, yet never get the same target path. */
  lemma ModrinthAndPrismTargetsDiffer(env: Env, tag: string)
    requires Readable(env, "APPDATA")
    ensures TargetDir("1", env, tag) != TargetDir("3", env, tag)
  {
  }
}
