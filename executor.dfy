/** `DockerCommandExecutor`: the choice between running a task locally and
    running it in a container, and the preparation of the image (build or
    pull) that comes before the container is started.

    Every outside effect goes through a `Host` value: the synchronous
    `docker images`, `docker build` and `docker pull` calls are answered by
    `exec`, the digest of the image settings by `digest`, and the path
    operations of `java.nio` by `absolute` and `workdir`. The effects the
    executor causes are recorded in a `Setup` value: the commands it ran, in
    order, and the Dockerfile it wrote. */
module Executor {
  import opened Results
  import opened JavaStrings
  import opened Builders
  import opened ImageName
  import opened Probe
  import opened Dockerfile
  import opened Commands

  // ---------------------------------------------------------------------------
  // Requests and processes
  // ---------------------------------------------------------------------------

  /** The `docker` section of a task's configuration. */
  datatype DockerConfig = DockerConfig(image: Option<string>, build: Option<seq<string>>, pullAlways: Option<bool>)

  /** A task's configuration, as far as the executor reads it. */
  datatype Config = Config(docker: Option<DockerConfig>)

  datatype TaskRequest = TaskRequest(projectId: int, revision: Option<string>, config: Config)

  /** `ProcessBuilder.Redirect`. */
  datatype Redirect = Pipe | Inherit | ReadFrom(file: string) | WriteTo(file: string) | AppendTo(file: string)

  datatype Redirects = Redirects(input: Redirect, output: Redirect, error: Redirect, errorStream: bool)

  /** The `ProcessBuilder` a task hands to the executor. `environment` lists
      the entries of `pb.environment()` in its iteration order. */
  datatype TaskProcess = TaskProcess(command: seq<string>, environment: seq<(string, string)>,
                                     directory: Option<string>, redirects: Redirects)

  /** The `ProcessBuilder` the executor starts for a container. Its
      environment is the executor's own, not the task's, so it is not
      recorded; the task's variables travel as `-e` arguments. */
  datatype ContainerProcess = ContainerProcess(command: seq<string>, directory: string, redirects: Redirects)

  /** What `start` hands on: the task's own process given to the local
      executor with the absolute project path, or the `docker run` process. */
  datatype Started =
    | Local(projectPath: string, process: TaskProcess)
    | Container(container: ContainerProcess)

  /** The answer to one synchronous command: it could not be started, its
      output could not be read or it could not be waited for, or it exited
      with a code. `output` is what it printed, standard error included; only
      the `docker images` listing is read, since `docker build` and `docker
      pull` write to the executor's own streams. */
  datatype ExecResult = Exited(code: int, output: string) | StartFailed(reason: string)

  /** The settings the image tag is a digest of. */
  datatype TagInput = TagInput(image: string, build: seq<string>, revision: string)

  datatype Host = Host(
    exec: seq<string> -> ExecResult,
    digest: TagInput -> string,
    randomUuid: string,
    absolute: string -> string,
    workdir: string -> string)

  /** Why `start` throws: the `image` key is missing, a command could not be
      started, read or waited for, or it exited with a non-zero code. */
  datatype Error = MissingImage | ProcessError(argv: seq<string>, reason: string) | CommandFailed(message: string)

  datatype FileWrite = FileWrite(path: string, text: string)

  /** The effects of preparing the image, and the error that stopped it. */
  datatype Setup = Setup(invoked: seq<seq<string>>, written: Option<FileWrite>, failure: Option<Error>)

  const NoSetup: Setup := Setup([], None, None)

  datatype Attempt = Attempt(setup: Setup, result: Result<Started, Error>)

  const BuildFailed: string := "Docker build failed"
  const PullFailed: string := "Docker pull failed"

  // ---------------------------------------------------------------------------
  // Specification
  // ---------------------------------------------------------------------------

  /** The outcome of a command run for its exit status: it fails exactly when
      it could not be started or exited with a non-zero code. */
  function ExitFailure(argv: seq<string>, r: ExecResult, message: string): (f: Option<Error>)
    ensures f.None? <==> r.Exited? && r.code == 0
  {
    match r
    case StartFailed(reason) => Some(ProcessError(argv, reason))
    case Exited(code, _) => if code != 0 then Some(CommandFailed(message)) else None
  }

  /** The revision the tag is computed from: the request's own, or a fresh
      random one when it has none. */
  function EffectiveRevision(request: TaskRequest, host: Host): string
  {
    request.revision.GetOr(host.randomUuid)
  }

  /** `uniqueImageName`: the project's name and the digest of the base image,
      the build commands and the revision. */
  function UniqueImageNameFor(request: TaskRequest, baseImageName: string, buildCommands: seq<string>, host: Host): (r: string)
    ensures SplitFirst(r, ':')
        == [ProjectName(request.projectId), host.digest(TagInput(baseImageName, buildCommands, EffectiveRevision(request, host)))]
  {
    UniqueImageName(request.projectId, host.digest(TagInput(baseImageName, buildCommands, EffectiveRevision(request, host))))
  }

  /** The working directory inside the container: the task's directory, or
      the current one, made normal and absolute by the host. */
  function WorkDir(host: Host, pb: TaskProcess): string
  {
    host.workdir(pb.directory.GetOr(""))
  }

  /** What `buildImage` does. It always lists the images first; if that
      cannot run, it fails. If the listing shows the image, nothing else
      happens. Otherwise the Dockerfile is written and `docker build` runs,
      which fails on a non-zero exit code. The exit code of the listing is
      not looked at. */
  predicate BuildSetup(s: Setup, imageName: string, projectPath: string, baseImageName: string,
                       buildCommands: seq<string>, host: Host)
  {
    var probe := host.exec(ImagesArgv);
    var path := DockerfilePath(projectPath, imageName);
    var argv := BuildArgv(path, imageName, projectPath);
    && (probe.StartFailed? ==> s == Setup([ImagesArgv], None, Some(ProcessError(ImagesArgv, probe.reason))))
    && (probe.Exited? && ImagePresent(probe.output, imageName) ==> s == Setup([ImagesArgv], None, None))
    && (probe.Exited? && !ImagePresent(probe.output, imageName) ==>
          s == Setup([ImagesArgv, argv], Some(FileWrite(path, DockerfileText(baseImageName, buildCommands))),
                     ExitFailure(argv, host.exec(argv), BuildFailed)))
  }

  /** What `pullImage` does: one `docker pull`, which fails on a non-zero
      exit code. */
  predicate PullSetup(s: Setup, imageName: string, host: Host)
  {
    s == Setup([PullArgv(imageName)], None, ExitFailure(PullArgv(imageName), host.exec(PullArgv(imageName)), PullFailed))
  }

  /** The image the container runs: the built one when `build` is present,
      the base image otherwise. */
  function ImageUsed(request: TaskRequest, d: DockerConfig, baseImageName: string, host: Host): string
  {
    if d.build.Some? then UniqueImageNameFor(request, baseImageName, d.build.value, host) else baseImageName
  }

  /** The preparation `startWithDocker` performs before it builds the run
      vector: build with `build`, else pull when `pull_always` is true (false
      when absent), else nothing. */
  predicate PrepareSetup(s: Setup, projectPath: string, request: TaskRequest, d: DockerConfig,
                         baseImageName: string, host: Host)
  {
    && (d.build.Some? ==>
          BuildSetup(s, ImageUsed(request, d, baseImageName, host), projectPath, baseImageName, d.build.value, host))
    && (d.build.None? && d.pullAlways.GetOr(false) ==> PullSetup(s, baseImageName, host))
    && (d.build.None? && !d.pullAlways.GetOr(false) ==> s == NoSetup)
  }

  /** The container started once the image is ready: the run vector, the
      project path as directory, and the task's redirections. */
  predicate IsContainer(st: Started, projectPath: string, pb: TaskProcess, imageName: string, host: Host)
  {
    && st.Container?
    && IsRunArgv(st.container.command, projectPath, WorkDir(host, pb), pb.environment, imageName, pb.command)
    && st.container.directory == projectPath
    && st.container.redirects == pb.redirects
  }

  // ---------------------------------------------------------------------------
  // Operations
  // ---------------------------------------------------------------------------

  /** `buildImage`. */
  method BuildImage(imageName: string, projectPath: string, baseImageName: string,
                    buildCommands: seq<string>, host: Host) returns (s: Setup)
    ensures BuildSetup(s, imageName, projectPath, baseImageName, buildCommands, host)
  {
    var pattern := ProbePattern(imageName);
    var probe := host.exec(ImagesArgv);
    if probe.StartFailed? {
      return Setup([ImagesArgv], None, Some(ProcessError(ImagesArgv, probe.reason)));
    }
    if Find(pattern, probe.output) {
      return Setup([ImagesArgv], None, None);
    }
    var path := DockerfilePath(projectPath, imageName);
    var out := new TextWriter();
    WriteDockerfile(out, baseImageName, buildCommands);
    assert out.text == DockerfileText(baseImageName, buildCommands);
    var written := Some(FileWrite(path, out.text));
    var argv := BuildCommand(path, imageName, projectPath);
    var build := host.exec(argv);
    if build.StartFailed? {
      return Setup([ImagesArgv, argv], written, Some(ProcessError(argv, build.reason)));
    }
    if build.code != 0 {
      return Setup([ImagesArgv, argv], written, Some(CommandFailed(BuildFailed)));
    }
    return Setup([ImagesArgv, argv], written, None);
  }

  /** `pullImage`. */
  method PullImage(imageName: string, host: Host) returns (s: Setup)
    ensures PullSetup(s, imageName, host)
  {
    var command := new ListBuilder();
    command.Add("docker");
    command.Add("pull");
    command.Add(imageName);
    var argv := command.items;
    assert argv == PullArgv(imageName);
    var pull := host.exec(argv);
    if pull.StartFailed? {
      return Setup([argv], None, Some(ProcessError(argv, pull.reason)));
    }
    if pull.code != 0 {
      return Setup([argv], None, Some(CommandFailed(PullFailed)));
    }
    return Setup([argv], None, None);
  }

  /** `start` and `startWithDocker`. Without a `docker` section the task goes
      to the local executor untouched. With one, a missing `image` fails
      before anything runs; otherwise the image is prepared, any failure
      there is the result, and only a successful preparation leads to the
      container. */
  method Start(projectPath: string, request: TaskRequest, pb: TaskProcess, host: Host) returns (r: Attempt)
    ensures request.config.docker.None? ==>
      r == Attempt(NoSetup, Success(Local(host.absolute(projectPath), pb)))
    ensures request.config.docker.Some? && request.config.docker.value.image.None? ==>
      r == Attempt(NoSetup, Failure(MissingImage))
    ensures request.config.docker.Some? && request.config.docker.value.image.Some? ==>
      var d := request.config.docker.value;
      && PrepareSetup(r.setup, projectPath, request, d, d.image.value, host)
      && (r.setup.failure.Some? ==> r.result == Failure(r.setup.failure.value))
      && (r.setup.failure.None? ==>
            r.result.Success? && IsContainer(r.result.value, projectPath, pb, ImageUsed(request, d, d.image.value, host), host))
  {
    if request.config.docker.None? {
      return Attempt(NoSetup, Success(Local(host.absolute(projectPath), pb)));
    }
    var d := request.config.docker.value;
    if d.image.None? {
      return Attempt(NoSetup, Failure(MissingImage));
    }
    var baseImageName := d.image.value;
    var imageName: string;
    var setup: Setup;
    if d.build.Some? {
      imageName := UniqueImageNameFor(request, baseImageName, d.build.value, host);
      setup := BuildImage(imageName, projectPath, baseImageName, d.build.value, host);
    } else {
      imageName := baseImageName;
      if d.pullAlways.GetOr(false) {
        setup := PullImage(imageName, host);
      } else {
        setup := NoSetup;
      }
    }
    if setup.failure.Some? {
      return Attempt(setup, Failure(setup.failure.value));
    }
    var argv := RunCommand(projectPath, WorkDir(host, pb), pb.environment, imageName, pb.command);
    return Attempt(setup, Success(Container(ContainerProcess(argv, projectPath, pb.redirects))));
  }

  // ---------------------------------------------------------------------------
  // Properties
  // ---------------------------------------------------------------------------

  /** Building is fully determined by the image settings and the host's
      answers. */
  lemma BuildSetupUnique(s1: Setup, s2: Setup, imageName: string, projectPath: string, baseImageName: string,
                         buildCommands: seq<string>, host: Host)
    requires BuildSetup(s1, imageName, projectPath, baseImageName, buildCommands, host)
    requires BuildSetup(s2, imageName, projectPath, baseImageName, buildCommands, host)
    ensures s1 == s2
  {
  }

  /** The preparation is fully determined by the request and the host's
      answers. */
  lemma PrepareSetupUnique(s1: Setup, s2: Setup, projectPath: string, request: TaskRequest, d: DockerConfig,
                           baseImageName: string, host: Host)
    requires PrepareSetup(s1, projectPath, request, d, baseImageName, host)
    requires PrepareSetup(s2, projectPath, request, d, baseImageName, host)
    ensures s1 == s2
  {
    if d.build.Some? {
      BuildSetupUnique(s1, s2, ImageUsed(request, d, baseImageName, host), projectPath, baseImageName,
                       d.build.value, host);
    }
  }

  /** A listing row with the project's name, one or more spaces and the
      digest of the settings, whatever follows it, makes `buildImage` reuse
      the image and run nothing but the listing. (A request without a
      revision draws a fresh random one on every call, so a later call
      generally computes a different digest.) */
  lemma BuiltImageReused(s: Setup, request: TaskRequest, baseImageName: string, buildCommands: seq<string>,
                         projectPath: string, host: Host, code: int, header: string, spaces: nat, rest: string)
    requires 1 <= spaces
    requires host.exec(ImagesArgv)
          == Exited(code, header + "\n" + ProjectName(request.projectId) + Spaces(spaces)
                          + host.digest(TagInput(baseImageName, buildCommands, EffectiveRevision(request, host))) + rest)
    requires BuildSetup(s, UniqueImageNameFor(request, baseImageName, buildCommands, host), projectPath,
                        baseImageName, buildCommands, host)
    ensures s == Setup([ImagesArgv], None, None)
  {
    LongerTagIsPresent(header, ProjectName(request.projectId),
                       host.digest(TagInput(baseImageName, buildCommands, EffectiveRevision(request, host))),
                       spaces, rest);
  }

  /** A listing on a single line (no newline at all) never shows the image,
      so the Dockerfile is written and the build runs. */
  lemma SingleLineListingBuilds(s: Setup, imageName: string, projectPath: string, baseImageName: string,
                                buildCommands: seq<string>, host: Host, code: int, listing: string)
    requires '\n' !in listing
    requires host.exec(ImagesArgv) == Exited(code, listing)
    requires BuildSetup(s, imageName, projectPath, baseImageName, buildCommands, host)
    ensures s.written == Some(FileWrite(DockerfilePath(projectPath, imageName), DockerfileText(baseImageName, buildCommands)))
    ensures s.invoked == [ImagesArgv, BuildArgv(DockerfilePath(projectPath, imageName), imageName, projectPath)]
  {
    SingleLineListingNeverMatches(listing, imageName);
  }

  /** Whatever Dockerfile the preparation writes holds, line by line, the
      `FROM` line and one `RUN` line per piece of each build command, and
      lives under the project's build directory. */
  lemma WrittenDockerfile(s: Setup, imageName: string, projectPath: string, baseImageName: string,
                          buildCommands: seq<string>, host: Host)
    requires BuildSetup(s, imageName, projectPath, baseImageName, buildCommands, host)
    requires s.written.Some?
    ensures SplitAll(s.written.value.text, '\n')
        == [FromLine(baseImageName)] + Instructions(Pieces(buildCommands)) + [""]
    ensures s.written.value.path == DockerfilePath(projectPath, imageName)
  {
    DockerfileLines(baseImageName, buildCommands);
  }
}
