# Docker command executor of digdag, modelled in Dafny

digdag runs a task's command either as a local process or inside a Docker
container. `DockerCommandExecutor` makes that choice from the task's
`docker` configuration section. For a container it may first prepare the
image, by one of two routes:

- with `build`, it builds a content-addressed image
  `digdag-project-<id>:<digest>` from a synthesised Dockerfile, unless
  `docker images` already lists it;
- without `build`, it pulls the base image when `pull_always` is set.

With neither `build` nor `pull_always`, it runs the base image as named,
without preparing it.

It then assembles the `docker run` argument vector that wraps the task's own
command.

The project models that logic:

- `results.dfy` holds the `Option` and `Result` types.
- `java_strings.dfy` holds the Java string operations the code relies on, with their exact edge cases:
  - `String.split` on `"\n"`, with limit 0;
  - `split(":", 2)`;
  - `replace` and `replaceAll` of a single character;
  - `Integer.toString`.
- `builders.dfy` holds Guava's `ImmutableList.Builder` and the Dockerfile writer, as classes.
- `image_name.dfy` holds the image name.
- `probe.dfy` holds the cache probe. The probe's two regular expressions are written as an explicit scan over the listing.
- `dockerfile.dfy` holds the Dockerfile path and text, and the nested loops that write it.
- `commands.dfy` holds the `run`, `build` and `pull` vectors, and the loop over the environment.
- `executor.dfy` holds `start`, `startWithDocker`, `buildImage` and `pullImage`.

The outside world is a `Host` value made of deterministic functions:

- `exec` answers each synchronous `docker` command with its exit code, or with a failure to start it, read its output or wait for it. Only for `docker images` is the output read: it is captured together with standard error. `docker build` and `docker pull` write to the executor's own streams, and their output is ignored.
- `digest` stands for SHA-1 over the serialised settings.
- `randomUuid` is the revision used when the request has none.
- `absolute` is `toAbsolutePath`, and `workdir` is `normalize().toAbsolutePath()`.

An operation returns a `Setup` and, for `Start`, a `Result`:

- the `Setup` lists the commands it ran (in order), the Dockerfile it wrote, and the error that stopped it;
- the `Result` holds either the process to launch (local or container) or the error `start` would throw.

In these places the code does something a reader might not expect, and the
model follows it:

- The exit code of `docker images` is never read. Only a failure to start it, read its output or wait for it is fatal.
- The tag is matched as a prefix. Nothing bounds the match after the tag, so a listed tag that merely begins with the wanted one counts as a hit (`Probe.LongerTagIsPresent`). The first line of the listing can never match (`Probe.FirstLineNeverMatches`).
- `split("\n")` keeps empty lines inside a command, and each becomes a bare `RUN ` line (`Dockerfile.InteriorEmptyLineKept`). It drops trailing empty lines (`Dockerfile.TrailingNewlineDropped`).
- A `build` key holding an empty list still takes the build route. The Dockerfile then holds only its `FROM` line.
- Environment entries are passed in the map's iteration order. The model takes that order as given.

## Model

| member | source | states |
|---|---|---|
| Executor.Start | digdag-standards/src/main/java/io/digdag/standards/command/DockerCommandExecutor.java:47-132 | No `docker` section: the original process goes to the local executor with the absolute project path, and nothing runs. `docker` without `image`: fails before anything runs. Otherwise: with `build`, `buildImage` runs under the unique name: it reuses an image the listing shows, and otherwise writes the Dockerfile and builds it; without `build`, the base image is pulled when `pull_always` is true (default false); otherwise nothing runs. A failed preparation is the result. After a successful one, the container is the `docker run` vector, run from the project path with the task's redirections |
| Executor.PrepareSetupUnique | digdag-standards/src/main/java/io/digdag/standards/command/DockerCommandExecutor.java:62-76 | The preparation (commands run, file written, failure) is fully determined by the configuration and the host's answers |
| Executor.UniqueImageNameFor | digdag-standards/src/main/java/io/digdag/standards/command/DockerCommandExecutor.java:134-149 | Splitting the name at its first colon gives the project's name and the digest of (base image, build commands, revision). The revision is the request's own, or the random one when the request has none |
| Executor.BuildImage | digdag-standards/src/main/java/io/digdag/standards/command/DockerCommandExecutor.java:151-238 | `docker images` always runs first; if it cannot run, that is the failure. If the listing shows the image, nothing else runs and no file is written. Otherwise the Dockerfile text is written at the Dockerfile path, and `docker build` runs with the build vector; a failure to start it or a non-zero exit is the failure, the latter with the message "Docker build failed" |
| Executor.BuildSetupUnique | digdag-standards/src/main/java/io/digdag/standards/command/DockerCommandExecutor.java:151-238 | The outcome of building is fully determined by its inputs and the host's answers |
| Executor.PullImage | digdag-standards/src/main/java/io/digdag/standards/command/DockerCommandExecutor.java:240-260 | Exactly one command runs, `docker pull <image>`. It fails exactly when that command cannot start or exits non-zero; a failure to start carries the command and the reason, and a non-zero exit carries the message "Docker pull failed" |
| Executor.ExitFailure | digdag-standards/src/main/java/io/digdag/standards/command/DockerCommandExecutor.java:229-233 | A command run for its exit status fails exactly when it could not start or exited with a non-zero code |
| Executor.BuiltImageReused | digdag-standards/src/main/java/io/digdag/standards/command/DockerCommandExecutor.java:134-185 | A listing row with the project's name, one or more spaces and the digest makes `buildImage` reuse the image, whatever follows on that row. Only the listing runs and nothing is written |
| Executor.SingleLineListingBuilds | digdag-standards/src/main/java/io/digdag/standards/command/DockerCommandExecutor.java:164-222 | A listing with no newline never shows the image, so the Dockerfile is written and the build runs |
| Executor.WrittenDockerfile | digdag-standards/src/main/java/io/digdag/standards/command/DockerCommandExecutor.java:194-215 | Any Dockerfile written lies at the Dockerfile path. Read line by line, it is the `FROM` line, then one `RUN` line per piece, and nothing else |
| Commands.RunCommand | digdag-standards/src/main/java/io/digdag/standards/command/DockerCommandExecutor.java:78-118 | The vector is, in order: `docker run -i --rm -v`, then `p:p:rw` with the same project path on both sides, then `-w` and the workdir, then `-e K=V` for each environment entry in order, then the image, then the inner command unchanged as a suffix. Its length is 9 + 2·entries + the command's length |
| Commands.RunArgvUnique | digdag-standards/src/main/java/io/digdag/standards/command/DockerCommandExecutor.java:78-118 | Only one vector has that layout for given inputs |
| Commands.RunArgvLayout | digdag-standards/src/main/java/io/digdag/standards/command/DockerCommandExecutor.java:78-118 | The fixed head, the environment flags, the image and the command, concatenated, have the run layout |
| Commands.EnvFlagsShape | digdag-standards/src/main/java/io/digdag/standards/command/DockerCommandExecutor.java:110-112 | Two arguments per environment entry: `-e`, then `K=V` of that entry, in order |
| Commands.RunArgvExample | digdag-standards/src/main/java/io/digdag/standards/command/DockerCommandExecutor.java:78-118 | The concrete vector for `/work/proj`, `FOO=bar`, `digdag-project-7:abcd1234` and `./run.sh` |
| Commands.BuildCommand | digdag-standards/src/main/java/io/digdag/standards/command/DockerCommandExecutor.java:217-222 | The build vector is exactly `docker build -f <dockerfile> --force-rm -t <image> <projectPath>` |
| Dockerfile.DockerfileName | digdag-standards/src/main/java/io/digdag/standards/command/DockerCommandExecutor.java:196 | The file name is `Dockerfile.` followed by the image name with each `:` replaced by `.`, so it holds no colon |
| Dockerfile.DockerfilePath | digdag-standards/src/main/java/io/digdag/standards/command/DockerCommandExecutor.java:194-196 | The file lies in `<projectPath>/.digdag/tmp/docker`, with all three cases of `resolve` on a `Path.toString()`: the empty path, the root `/` (the only path that ends in a separator), and any other path |
| Dockerfile.WriteDockerfile | digdag-standards/src/main/java/io/digdag/standards/command/DockerCommandExecutor.java:198-215 | What the writer receives is exactly the Dockerfile text, appended to what it held before |
| Dockerfile.WriteBuildCommands | digdag-standards/src/main/java/io/digdag/standards/command/DockerCommandExecutor.java:208-214 | The outer loop writes the `RUN` lines of every build command, in list order |
| Dockerfile.WriteRunLines | digdag-standards/src/main/java/io/digdag/standards/command/DockerCommandExecutor.java:209-213 | The inner loop writes one `RUN <piece>\n` per piece, in order |
| Dockerfile.DockerfileLines | digdag-standards/src/main/java/io/digdag/standards/command/DockerCommandExecutor.java:198-214 | Split at newlines, the text is: `FROM ` plus the base image without newlines; then `RUN ` plus each piece of each build command, in order; then the empty rest after the final newline. No other instruction appears |
| Dockerfile.PiecesSingleLine | digdag-standards/src/main/java/io/digdag/standards/command/DockerCommandExecutor.java:209 | No piece holds a newline |
| Dockerfile.OneLineCommands | digdag-standards/src/main/java/io/digdag/standards/command/DockerCommandExecutor.java:208-209 | Build commands of one line each are their own pieces, one `RUN` line per command in list order |
| Dockerfile.TwoLineCommand | digdag-standards/src/main/java/io/digdag/standards/command/DockerCommandExecutor.java:209 | `a\nb` with `b` non-empty gives the two pieces `a` and `b`, in order |
| Dockerfile.InteriorEmptyLineKept | digdag-standards/src/main/java/io/digdag/standards/command/DockerCommandExecutor.java:209 | `a\n\nb` gives `a`, an empty piece, then `b` |
| Dockerfile.TrailingNewlineDropped | digdag-standards/src/main/java/io/digdag/standards/command/DockerCommandExecutor.java:209 | A final newline adds no piece |
| Dockerfile.PiecesConcat | digdag-standards/src/main/java/io/digdag/standards/command/DockerCommandExecutor.java:208-209 | The pieces of two command lists together are the pieces of each, in order |
| ImageName.ProjectName | digdag-standards/src/main/java/io/digdag/standards/command/DockerCommandExecutor.java:140 | The name part starts with `digdag-project-` and holds no colon |
| ImageName.UniqueImageName | digdag-standards/src/main/java/io/digdag/standards/command/DockerCommandExecutor.java:140-148 | Splitting at the first colon gives back the project's name and the digest, whatever the digest holds |
| ImageName.UniqueImageNameInjective | digdag-standards/src/main/java/io/digdag/standards/command/DockerCommandExecutor.java:137-148 | Two names are equal exactly when the project ids and the digests are equal, so projects never share an image |
| Probe.ProbePattern | digdag-standards/src/main/java/io/digdag/standards/command/DockerCommandExecutor.java:155-162 | The name-and-tag pattern is chosen exactly when the image name holds a colon. It is split at the first colon only, so the name part holds no colon. Otherwise the pattern is the whole name |
| Probe.SpacesThenTagIff | digdag-standards/src/main/java/io/digdag/standards/command/DockerCommandExecutor.java:158 | ` +` then the tag matches exactly when the text begins with k ≥ 1 spaces and then the tag |
| Probe.MatchesAtNameTagIff | digdag-standards/src/main/java/io/digdag/standards/command/DockerCommandExecutor.java:158 | The name-and-tag pattern matches at a position exactly when the text there begins with a newline, the name, k ≥ 1 spaces and the tag |
| Probe.FindIff | digdag-standards/src/main/java/io/digdag/standards/command/DockerCommandExecutor.java:180-181 | The search succeeds exactly when the pattern matches at some position of the listing |
| Probe.ImagePresentNameTag | digdag-standards/src/main/java/io/digdag/standards/command/DockerCommandExecutor.java:155-181 | A name with a colon is present exactly when the listing contains a newline, the part before the first colon, one or more spaces and the rest |
| Probe.ImagePresentName | digdag-standards/src/main/java/io/digdag/standards/command/DockerCommandExecutor.java:160-181 | A name without a colon is present exactly when the listing contains a newline, the whole name and a space |
| Probe.FirstLineNeverMatches | digdag-standards/src/main/java/io/digdag/standards/command/DockerCommandExecutor.java:158-161 | Text before the listing's first newline has no effect on the verdict |
| Probe.SingleLineListingNeverMatches | digdag-standards/src/main/java/io/digdag/standards/command/DockerCommandExecutor.java:180-181 | A listing without a newline never shows any image |
| Probe.FindExtend | digdag-standards/src/main/java/io/digdag/standards/command/DockerCommandExecutor.java:180-181 | Text appended after a match never undoes it |
| Probe.LongerTagIsPresent | digdag-standards/src/main/java/io/digdag/standards/command/DockerCommandExecutor.java:158 | A listed tag that only begins with the wanted tag is a hit |
| JavaStrings.SplitFirst | digdag-standards/src/main/java/io/digdag/standards/command/DockerCommandExecutor.java:155 | `split(":", 2)` gives one piece, the string itself, when there is no colon. Otherwise it gives the colon-free text before the first colon and everything after it, and the two glue back to the string |
| JavaStrings.SplitFirstJoin | digdag-standards/src/main/java/io/digdag/standards/command/DockerCommandExecutor.java:155 | `a:b` with `a` colon-free splits into exactly `a` and `b` |
| JavaStrings.JavaSplitPieces | digdag-standards/src/main/java/io/digdag/standards/command/DockerCommandExecutor.java:209 | `split("\n")` gives newline-free pieces, and `""` gives `[""]`. Otherwise it gives the newline-split pieces up to the last non-empty one, and every piece dropped is empty |
| JavaStrings.JoinSplitAll | digdag-standards/src/main/java/io/digdag/standards/command/DockerCommandExecutor.java:209 | Gluing the newline-split pieces back together gives the original text |
| JavaStrings.SplitAllJoin | digdag-standards/src/main/java/io/digdag/standards/command/DockerCommandExecutor.java:209 | Splitting glued newline-free pieces gives them back |
| JavaStrings.ReplaceChar | digdag-standards/src/main/java/io/digdag/standards/command/DockerCommandExecutor.java:196 | The length is kept; each `:` becomes `.`, and every other character is unchanged |
| JavaStrings.RemoveChar | digdag-standards/src/main/java/io/digdag/standards/command/DockerCommandExecutor.java:200 | No newline is left, nothing is added, and text without a newline is unchanged |
| JavaStrings.RemoveCharSplit | digdag-standards/src/main/java/io/digdag/standards/command/DockerCommandExecutor.java:200 | Removing every newline leaves exactly the text between the newlines, in order, glued with nothing between |
| JavaStrings.RemoveCharJoin | digdag-standards/src/main/java/io/digdag/standards/command/DockerCommandExecutor.java:200 | Removing the newline from newline-free pieces glued with newlines gives the pieces glued with nothing between |
| JavaStrings.RemoveCharAppend | digdag-standards/src/main/java/io/digdag/standards/command/DockerCommandExecutor.java:200 | Removing a character from two texts joined is removing it from each, joined |
| JavaStrings.IntToString | digdag-standards/src/main/java/io/digdag/standards/command/DockerCommandExecutor.java:140 | Every character is a digit or `-`, and a leading `-` appears exactly for negative ids |
| JavaStrings.IntToStringRoundTrip | digdag-standards/src/main/java/io/digdag/standards/command/DockerCommandExecutor.java:140 | Parsing the decimal text gives the id back |
| JavaStrings.IntToStringInjective | digdag-standards/src/main/java/io/digdag/standards/command/DockerCommandExecutor.java:140 | Distinct ids give distinct decimal texts |

## Left out

- Executor.Start: the container and the local process are returned as descriptions, and neither is started. So a failure to start the `docker run` process (lines 127-130) is not modelled.
- Executor.Start: the local branch only records the hand-off to `SimpleCommandExecutor.start`. That executor is not part of this model.
- Executor.BuildImage: creating the directory and writing the Dockerfile (lines 195 and 198) are assumed to succeed. Their `IOException` path is not modelled.
- Executor.Start: configuration values of the wrong type are not modelled. This covers an `image` that is not a string, a `build` that is not a list of strings, and a `pull_always` that is not a boolean. Only a missing `image` is.
- `InterruptedException` from `waitFor` is merged into a failure to start: both are wrapped in a `RuntimeException`.
- Process spawning, stream redirection and copying the listing into a buffer are operating-system I/O. They are the host's `exec` answers. The working directory of each command is not recorded either: `docker build` runs in the project path (line 227), while `docker images` and `docker pull` run in the executor's own directory.
- The SHA-1 digest of `Config.toString()` is the host's uninterpreted `digest`. As a result, "different settings give different digests" is not claimed, since it holds only with overwhelming probability. `UUID.randomUUID()` is the host's `randomUuid`.
- `toAbsolutePath` and `normalize` depend on the file system and the current directory. They are host functions, applied as the code applies them.
- Logging is left out. Exceptions are the `Error` values of a `Result`.
- Guava's `ImmutableList`, `BufferedWriter` and `Files` are represented only by the builder and writer classes.
- The environment map's iteration order is taken as the given order of `environment`.
- `ContainerProcess` has no environment. The `docker run` process starts with the executor's own environment, since a new `ProcessBuilder` copies the JVM's (line 120), and the task's variables reach the container only through the `-e` arguments.
- The CLI `kill` subcommand (`Kill.java`) is left out. It is a single remote call with no logic of its own.
