/** The decisions of the updater's `main`, with the terminal, the network and the file
    system replaced by their inputs: the key events, the fetched release, the response body
    of the download and the environment. The result says what the run goes on to do: nothing
    (no key chosen, or no matching asset) or an update, described by where the download is
    staged and how it is installed. */
module Workflow {
  import opened Wrappers
  import opened Errors
  import opened Launcher
  import opened Releases
  import opened Download
  import opened Paths

  const InstanceJson: string := "minecraftinstance.json"

  /** How the staged artifact is installed. Modrinth's own installer receives the staged
      pack and the instance name. The other launchers get the archive extracted into the
      target directory, after which the `minecraftinstance.json` asset (if the release has
      one) is downloaded into it and, for Prism, `instance.cfg` is rewritten. */
  datatype Install =
    | Managed(pack: Path, name: string)
    | Archive(target: Path, instanceJson: Option<nat>, rewritesConfig: bool)

  datatype Plan = Plan(choice: string, stagingFile: Path, content: seq<bv8>, install: Install)

  datatype Outcome =
    | NoKeyChosen              // the key events ran out before a choice; the program would wait
    | NotAvailable(artifact: string)  // "No new release found or '..' not available."
    | Updated(plan: Plan)

  /** How `main` installs the staged artifact for a choice. */
  function InstallFor(choice: string, stagingFile: Path, target: Path, release: Release): (install: Install)
    ensures install.Managed? <==> choice == "1"
    ensures install.Managed? ==> install.pack == stagingFile && install.name == InstanceName(release.tagName)
    ensures install.Archive? ==>
      install.target == target && install.rewritesConfig == (choice == "3")
      && install.instanceJson == FindAsset(release.assets, InstanceJson)
  {
    if choice == "1" then Managed(stagingFile, InstanceName(release.tagName))
    else Archive(target, FindAsset(release.assets, InstanceJson), choice == "3")
  }

  /** The decision flow of `main`, from the key loop to the install plan. Each step runs
      only when the ones before it succeeded: the key loop, the asset lookup, the buffer
      reservation and the chunk loop, the staging path and the install target. */
  method Run(release: Release, events: seq<ReadEvent>, body: seq<ChunkRead>, env: Env)
    returns (r: Result<Outcome, Error>)
    ensures r == Ok(NoKeyChosen) <==> SelectedChoice(events).None?
    ensures SelectedChoice(events).Some? ==>
      var choice := SelectedChoice(events).value;
      var artifact := ArtifactName(choice);
      var found := FindAsset(release.assets, artifact);
      var tag := release.tagName;
      var reserved := found.Some? && release.assets[found.value].size >= 0;
      var downloaded := reserved && FailureIndex(body) == |body|;
      var staged := downloaded && Readable(env, "APPDATA");
      (found.None? ==> r == Ok(NotAvailable(artifact)))
      && (found.Some? && !reserved ==> r == Err(CapacityOverflow))
      && (reserved && !downloaded ==> r == Err(ChunkReadFailed))
      && (downloaded && !staged ==> r == Err(Var(env, "APPDATA").error))
      && (staged && TargetDir(choice, env, tag).Err? ==> r == Err(TargetDir(choice, env, tag).error))
      && (staged && TargetDir(choice, env, tag).Ok? ==>
            var stagingFile := StagingFile(env, tag, artifact).value;
            var install := InstallFor(choice, stagingFile, TargetDir(choice, env, tag).value, release);
            r == Ok(Updated(Plan(choice, stagingFile, Received(body), install))))
    ensures r.Err? ==>
      r.error in {CapacityOverflow, ChunkReadFailed}
      || (r.error.EnvVarFailed? && !Readable(env, r.error.name))
    ensures r != Err(InvalidChoice)
  {
    var choice, _, _ := ReadChoice(events);
    if choice.None? {
      return Ok(NoKeyChosen);
    }
    var artifact := ArtifactName(choice.value);
    var found := FindAsset(release.assets, artifact);
    if found.None? {
      return Ok(NotAvailable(artifact));
    }
    var asset := release.assets[found.value];
    var content, _ := DownloadBody(asset.size, body);
    if content.Err? {
      return Err(content.error);
    }
    var stagingFile := StagingFile(env, release.tagName, artifact);
    if stagingFile.Err? {
      return Err(stagingFile.error);
    }
    var profileRoot := ProfileRoot(choice.value, env);
    if profileRoot.Err? {
      ChoiceNeverInvalid(choice.value, env);
      return Err(profileRoot.error);
    }
    var target := [profileRoot.value, InstanceName(release.tagName)];
    var install := InstallFor(choice.value, stagingFile.value, target, release);
    r := Ok(Updated(Plan(choice.value, stagingFile.value, content.value, install)));
  }
}
