# Originalife modpack updater — a Dafny model

The updater is a command-line tool. It fetches the latest release of a Minecraft modpack and
asks the user which launcher they use (1 Modrinth, 2 CurseForge, 3 Prism). It then downloads
the release artifact for that launcher and stages it under `%APPDATA%\Originalife Season 4\<tag>`.
Finally it installs the artifact into the launcher's instance directory
`<profile root>\Originalife Season 4 - <tag>`, and for Prism rewrites the `name=` line of
`instance.cfg`.

This project models the decision logic of `src/main.rs` and three helpers of `src/utils.rs`.
The terminal, the network and the file system are replaced by plain inputs:

- the key events are a sequence of read results;
- the release is a value with a tag and a list of assets;
- the response body is a sequence of chunk reads;
- the environment is a map from variable names to values, each either Unicode text or not;
- a directory is a map from entry names to files or subtrees.

Modules, one per component:

- `wrappers.dfy` (`Wrappers`): the `Option` and `Result` types.
- `errors.dfy` (`Errors`): one error variant per failure the model covers.
- `text.dfy` (`Text`): a text as lines separated by `'\n'`, with split/join round-trip lemmas.
- `launcher.dfy` (`Launcher`): the key loop and the choice-to-artifact mapping.
- `release.dfy` (`Releases`): releases, assets and the first-match asset lookup.
- `download.dfy` (`Download`): the chunk loop that fills the buffer and drives the progress bar.
- `paths.dfy` (`Paths`): the staging file, the launcher profile roots and the install target.
- `instance_config.dfy` (`InstanceConfig`): the `instance.cfg` name-line rewrite.
- `workflow.dfy` (`Workflow`): `main`'s flow from the key loop to the install plan.
- `utils.dfy` (`Utils`): `format_repo_data`, the `HH:MM:SS => ` log prefix, the progress bar
  and `remove_dir_contents`.

Paths are lists of the segments that `PathBuf::join` puts together. A launcher's profile root
is a single segment built by string concatenation with backslashes, as the source builds it.
The launcher choice stays the string `"1"`, `"2"` or `"3"` that the key loop breaks out with.
This keeps the `_ => Err("Invalid choice")` arm of the profile-root match in the model, and
`Paths.ChoiceNeverInvalid` together with `Workflow.Run` show that this arm is unreachable.

Behaviour of the code that the model keeps:

- Only key presses other than 1/2/3 print the retry prompt. Other events and failed reads are
  skipped silently.
- The staging directory is under `APPDATA`.
- Every line starting with `name=` in `instance.cfg` is replaced.
- A missing asset is not an error: the run reports it and returns `Ok(())`
  (`Workflow.Outcome.NotAvailable`).
- A negative declared asset size is cast to a buffer capacity above `isize::MAX`, so the
  reservation panics before any chunk is read (`Errors.Error.CapacityOverflow`).

## Model

| member | source | states |
|---|---|---|
| Launcher.ChoiceOf | src/main.rs:46-49 | an event chooses exactly when it is a `'1'`, `'2'` or `'3'` key press, and the choice is that character as a string |
| Launcher.Prompts | src/main.rs:50 | an event prints the prompt exactly when it is a key press other than `'1'`, `'2'` or `'3'`; non-key events and failed reads never do |
| Launcher.FirstChoiceIndex | src/main.rs:44-53 | the position found is the first event that is a `'1'`, `'2'` or `'3'` key press; if there is none, no event chooses |
| Launcher.SelectedChoice | src/main.rs:44-53 | the loop's choice is always one of "1", "2", "3", and it is absent exactly when no event chooses |
| Launcher.ReadChoice | src/main.rs:44-53 | the loop stops right after the first choosing event and returns its choice; every earlier event (other key, non-key event, read error) was skipped; the prompt count is the number of non-choosing key presses consumed; without a choosing event, all events are consumed |
| Launcher.ArtifactName | src/main.rs:55-59 | the artifact is one of the three release file names; it is the Modrinth `.mrpack` exactly for "1" and the CurseForge zip exactly for "2", otherwise the Prism zip |
| Launcher.ArtifactNamesDistinct | src/main.rs:55-59 | different launcher choices request different artifacts |
| Releases.FindAsset | src/main.rs:61-65 | the result is the first asset whose name equals the artifact name exactly; none is found exactly when no asset has that name |
| Releases.FindAssetIgnoresSuffix | src/main.rs:61-65 | assets listed after the first match never change which asset is selected |
| Download.FailureIndex | src/main.rs:82-86 | the index of the first failed chunk read, with every earlier read a successful chunk |
| Download.ReceivedAppend | src/main.rs:80-89 | the bytes received from two consecutive runs of reads are those of the first followed by those of the second |
| Download.ReceivedLength | src/main.rs:80-89 | the received buffer is exactly as long as the sum of the chunk lengths |
| Download.DownloadBody | src/main.rs:70-91 | a negative declared size aborts with the capacity overflow before any chunk is read; otherwise the download succeeds exactly when no chunk read fails, the buffer is then the in-order concatenation of all chunks and the progress bar has advanced by its length; a failed read returns the chunk-read error, and the bar stands at the bytes received before it |
| Paths.InstanceName | src/main.rs:122-125 | the instance name is "Originalife Season 4 - " followed by exactly the tag |
| Paths.Var | src/main.rs:93 | a lookup succeeds exactly for a variable that is set and Unicode, and returns its text; an unset variable and a non-Unicode one are errors naming the variable and the cause |
| Paths.StagingDir | src/main.rs:93-96 | the staging directory is APPDATA's text / "Originalife Season 4" / tag; it fails exactly when APPDATA cannot be read, with that lookup's error |
| Paths.StagingFile | src/main.rs:103 | the staging file is APPDATA's text / "Originalife Season 4" / tag / artifact name; it fails exactly when APPDATA cannot be read |
| Paths.StagingFilesSeparateReleases | src/main.rs:93-103 | two different release tags give different staging paths |
| Paths.ProfileRoot | src/main.rs:106-120 | the profile root exists exactly for a valid choice whose variables (APPDATA, or HOMEDRIVE and HOMEPATH) can all be read; it is APPDATA followed by `\ModrinthApp\profiles` for "1", HOMEDRIVE + HOMEPATH followed by `\curseforge\minecraft\Instances` for "2", and APPDATA followed by `\PrismLauncher\instances` for "3"; the error names an unreadable required variable, HOMEDRIVE first for CurseForge; any other choice string is an invalid-choice error |
| Paths.ChoiceNeverInvalid | src/main.rs:116-119 | no choice that the key loop can produce reaches the invalid-choice arm |
| Paths.TargetDir | src/main.rs:122-125 | the install target is the profile root joined with the instance name, and it fails exactly when the profile root fails, with the same error |
| Paths.InstanceNameInjective | src/main.rs:122-125 | the instance name determines the tag |
| Paths.TargetsSeparateReleases | src/main.rs:122-125 | for a fixed launcher and environment, different tags give different target paths |
| Paths.ModrinthAndPrismTargetsDiffer | src/main.rs:106-125 | Modrinth and Prism both build on APPDATA, but their target paths always differ |
| InstanceConfig.NameLine | src/main.rs:201 | the replacement line is `name=` followed by the instance name, and has no line break when the tag has none |
| InstanceConfig.RewriteLine | src/main.rs:199-203 | a line starting with `name=` becomes the replacement line `name=Originalife Season 4 - <tag>`, any other line is left unchanged, and no line break is introduced for a tag without one |
| InstanceConfig.RewriteLines | src/main.rs:199-203 | the rewrite maps each line on its own and keeps the number of lines |
| InstanceConfig.RewriteConfig | src/main.rs:199-203 | for a tag without a line break, the rewritten file has as many lines as the original; each line starting with `name=` becomes `name=Originalife Season 4 - <tag>` and every other line is unchanged |
| InstanceConfig.RewriteWithoutNameLine | src/main.rs:199-203 | a file without a `name=` line is written back byte for byte |
| InstanceConfig.RewriteIdempotent | src/main.rs:199-203 | applying the rewrite twice gives the same text as applying it once |
| InstanceConfig.PatchInstanceConfig | src/main.rs:194-206 | `instance.cfg` is written only for Prism and only when it exists, and then with the rewritten text |
| Workflow.InstallFor | src/main.rs:127-206 | Modrinth ("1") hands the staged pack to its installer under the instance name; the other choices extract into the target, fetch the `minecraftinstance.json` asset if the release has one, and rewrite `instance.cfg` only for Prism |
| Workflow.Run | src/main.rs:44-216 | the run ends with nothing to do exactly when no key chooses; without the matching asset it ends with Ok and downloads nothing; with it, a negative size gives the capacity overflow, a failed chunk read the chunk-read error, an unreadable APPDATA its lookup error, a failing profile root its error, and otherwise an update plan of the choice, the staging file, the whole body and the install; errors are only these, never an invalid choice |
| Utils.FormatRepoData | src/utils.rs:68-74 | the summary as written starts with the user line, and its length counts the user three times and the repository name once |
| Utils.RepoDataLines | src/utils.rs:68-74 | the summary has four lines: the user, the user again under the "Repo" label, a blank line and `https://github.com/<user>/<repo>.git` |
| Utils.RepoLineShowsUser | src/utils.rs:68-74 | for user "alice" and repository "pack" the "Repo" line reads "Repo => alice", not "Repo => pack" |
| Utils.FormatRepoDataIntended | src/utils.rs:68-74 | the corrected summary starts with the user line and counts the user and the repository name twice each |
| Utils.RepoDataIntendedLines | src/utils.rs:68-74 | the corrected summary's "Repo" line names the repository; the other lines are unchanged |
| Utils.Decimal | src/utils.rs:14-20 | the decimal rendering is all digits, reads back as the number, has no leading zero, and is one digit exactly below 10 |
| Utils.Pad2 | src/utils.rs:16 | `{:02}` gives digits that read back as the number, at least two of them, exactly two below 100, and no leading zero from 100 up |
| Utils.TimePrefix | src/utils.rs:12-20 | for a clock time the prefix is 12 characters `HH:MM:SS => `, with two digits per field that read back as hour, minute and second |
| Utils.AsU64 | src/utils.rs:39 | the `as u64` cast keeps non-negative sizes and maps negative ones to their two's-complement value: congruent to the size modulo 2^64, between 2^63 and 2^64 |
| Utils.ProgressBar.constructor | src/utils.rs:38-48 | a new bar has length `total_size as u64` and position zero |
| Utils.ProgressBar.Inc | src/main.rs:88 | incrementing advances the position by the chunk length and keeps the length |
| Utils.StopIndex | src/utils.rs:26-33 | the index of the first listing item that cannot be read or removed; every earlier item can be |
| Utils.StopError | src/utils.rs:27-32 | an unreadable item gives the entry-read error; a directory or file that cannot be removed gives the matching removal error naming that entry |
| Utils.ListingCompletes | src/utils.rs:24-35 | on a complete listing, the loop reaches the end exactly when every item was readable and every entry removable |
| Utils.Directory.RemoveContents | src/utils.rs:24-35 | an unreadable directory is an error and stays untouched; otherwise exactly the entries before the first failing item are removed, the error names that item, and on success the directory is empty but still exists |

## Findings

| source | as written | input that shows it | evidently intended | confidence | as-written member | corrected member |
|---|---|---|---|---|---|---|
| src/utils.rs:68-74 | the second argument of the "Repo => {}" line is `repo_user` | user "alice", repository "pack": the Repo line reads "Repo => alice" | the "Repo" line shows `repo_name` | likely; not executed | Utils.RepoLineShowsUser | Utils.FormatRepoDataIntended |

## Left out

- The release query (`utils::latest_release`) is not part of this model. The release is an input.
- HTTP: the request is not modelled. That covers the URL parse error ("Invalid URL"), a failed `send`, and the download of `minecraftinstance.json` and its failures. The response body is given as a sequence of chunk reads, and the plan only names the `minecraftinstance.json` asset to fetch.
- The terminal: printing and the menu are left out. The retry prompt is counted (`Launcher.PromptCount`), not printed. When the key events run out without a choice, the model returns `NoKeyChosen`, where the program would keep waiting.
- The Modrinth installer (`State::init`, `install_zipped_mrpack`) is a foreign call. The plan records the staged pack and the instance name it is called with.
- ZIP opening and extraction are a library call and are left out.
- File system effects are left out of the plan: creating the staging directory, choosing between `remove_dir_contents` and `create_dir_all` for the target, the removal of `minecraftinstance.json`, and the `exists`, `write` and `read_to_string` calls. The plan records only the choice, the staging file, the downloaded content and how it is installed. `remove_dir_contents` and the `instance.cfg` text are modelled separately.
- Paths are compared as values, not as the files they name. On a case-insensitive file system two tags that differ only in case ("v1.0" and "V1.0") name the same staging file and the same instance directory, although `Paths.StagingFilesSeparateReleases` and `Paths.TargetsSeparateReleases` show their paths differ.
- Utils.Directory.RemoveContents: a failing `remove_dir_all` is modelled as leaving that entry whole. A real recursive removal may delete part of the subtree before it fails. `is_dir` on symbolic links is not modelled, and the listing order is an input.
- Paths.Var: values are either Unicode text or not; the bytes of a non-Unicode value are not modelled, only that `env::var` rejects it.
- Workflow.Run: for CurseForge an unreadable HOMEDRIVE or HOMEPATH is reported after the staging directory was created and the download written. The returned error does not record those earlier file system effects.
- Utils.ProgressBar.Inc: the position is an unbounded natural number, so `u64` overflow is not modelled.
- InstanceConfig.RewriteConfig: stated only for tags without `'\n'`. A tag with a line break would add lines.
- InstanceConfig.RewriteIdempotent: stated only for tags without `'\n'`. For a tag with a line break a second pass could meet a new `name=` line.
- The logging setup, the progress bar style, the `dotenv!` compile-time repository name, the async runtime and reading the clock are left out. `TimePrefix` takes hour, minute and second as inputs.
- Download.DownloadBody: a 64-bit target is assumed (`usize` is `u64`). A failed allocation of a non-negative capacity aborts the real program; the model treats every such reservation as successful.
- `src/cli.rs` is a flag declaration with no logic and is left out.
