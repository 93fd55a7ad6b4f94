/** The argument vectors the executor hands to the `docker` command line. */
module Commands {
  import opened Builders

  /** The listing the cache probe reads. */
  const ImagesArgv: seq<string> := ["docker", "images"]

  /** The bind mount of the project directory onto the same path in the
      container, writable: `String.format("%s:%s:rw", projectPath,
      projectPath)`. */
  function MountSpec(projectPath: string): string
  {
    projectPath + ":" + projectPath + ":rw"
  }

  /** One environment entry as passed to `-e`. */
  function EnvArg(entry: (string, string)): string
  {
    entry.0 + "=" + entry.1
  }

  /** The fixed head of the run vector, up to and including the working
      directory. */
  function RunHead(projectPath: string, workdir: string): seq<string>
  {
    ["docker", "run", "-i", "--rm", "-v", MountSpec(projectPath), "-w", workdir]
  }

  /** `argv` is the `docker run` vector: `docker run -i --rm`, the mount of
      the project path onto itself, `-w` and the working directory, then
      `-e K=V` for each environment entry in iteration order, the image, and
      finally the inner command unchanged. */
  predicate IsRunArgv(argv: seq<string>, projectPath: string, workdir: string,
                      env: seq<(string, string)>, imageName: string, command: seq<string>)
  {
    && |argv| == 9 + 2 * |env| + |command|
    && argv[..8] == RunHead(projectPath, workdir)
    && (forall i :: 0 <= i < |env| ==> argv[8 + 2 * i] == "-e" && argv[9 + 2 * i] == EnvArg(env[i]))
    && argv[8 + 2 * |env|] == imageName
    && argv[9 + 2 * |env|..] == command
  }

  /** The run vector is fully determined by its inputs. */
  lemma RunArgvUnique(a: seq<string>, b: seq<string>, projectPath: string, workdir: string,
                      env: seq<(string, string)>, imageName: string, command: seq<string>)
    requires IsRunArgv(a, projectPath, workdir, env, imageName, command)
    requires IsRunArgv(b, projectPath, workdir, env, imageName, command)
    ensures a == b
  {
    var n := 8 + 2 * |env|;
    forall k | 0 <= k < |a|
      ensures a[k] == b[k]
    {
      if k < 8 {
        assert a[k] == a[..8][k] && b[k] == b[..8][k];
      } else if k < n {
        var i := (k - 8) / 2;
        assert k == 8 + 2 * i || k == 9 + 2 * i;
      } else if k > n {
        assert a[k] == a[n + 1..][k - n - 1] && b[k] == b[n + 1..][k - n - 1];
      }
    }
  }

  /** The `-e K=V` pairs, one per environment entry, in order. */
  function EnvFlags(env: seq<(string, string)>): seq<string>
    decreases |env|
  {
    if env == [] then [] else ["-e", EnvArg(env[0])] + EnvFlags(env[1..])
  }

  lemma {:induction false} EnvFlagsShape(env: seq<(string, string)>)
    ensures |EnvFlags(env)| == 2 * |env|
    ensures forall i :: 0 <= i < |env| ==> EnvFlags(env)[2 * i] == "-e" && EnvFlags(env)[2 * i + 1] == EnvArg(env[i])
    decreases |env|
  {
    if env != [] {
      EnvFlagsShape(env[1..]);
      forall i | 0 <= i < |env|
        ensures EnvFlags(env)[2 * i] == "-e" && EnvFlags(env)[2 * i + 1] == EnvArg(env[i])
      {
        if i > 0 {
          assert env[i] == env[1..][i - 1];
          assert EnvFlags(env)[2 * i] == EnvFlags(env[1..])[2 * (i - 1)];
          assert EnvFlags(env)[2 * i + 1] == EnvFlags(env[1..])[2 * (i - 1) + 1];
        }
      }
    }
  }

  lemma {:induction false} EnvFlagsAppend(env: seq<(string, string)>, entry: (string, string))
    ensures EnvFlags(env + [entry]) == EnvFlags(env) + ["-e", EnvArg(entry)]
    decreases |env|
  {
    if env == [] {
      assert env + [entry] == [entry];
      assert [entry][1..] == [];
    } else {
      assert (env + [entry])[0] == env[0];
      assert (env + [entry])[1..] == env[1..] + [entry];
      EnvFlagsAppend(env[1..], entry);
    }
  }

  /** One more environment entry adds `-e` and `K=V` after what is already
      in the builder. */
  lemma EnvFlagsStep(head: seq<string>, env: seq<(string, string)>, i: nat)
    requires i < |env|
    ensures head + EnvFlags(env[..i + 1]) == ((head + EnvFlags(env[..i])) + ["-e"]) + [EnvArg(env[i])]
  {
    assert env[..i + 1] == env[..i] + [env[i]];
    EnvFlagsAppend(env[..i], env[i]);
  }

  /** A vector laid out as head, flags, image and command is the run vector. */
  lemma RunArgvLayout(argv: seq<string>, projectPath: string, workdir: string,
                      env: seq<(string, string)>, imageName: string, command: seq<string>)
    requires argv == RunHead(projectPath, workdir) + EnvFlags(env) + [imageName] + command
    ensures IsRunArgv(argv, projectPath, workdir, env, imageName, command)
  {
    EnvFlagsShape(env);
    var flags := EnvFlags(env);
    assert argv[..8] == RunHead(projectPath, workdir);
    forall i | 0 <= i < |env|
      ensures argv[8 + 2 * i] == "-e" && argv[9 + 2 * i] == EnvArg(env[i])
    {
      assert argv[8 + 2 * i] == flags[2 * i];
      assert argv[9 + 2 * i] == flags[2 * i + 1];
    }
    assert argv[9 + 2 * |env|..] == command;
  }

  /** The builder steps of `startWithDocker` that assemble the run vector,
      with the loop over the environment entries. */
  method RunCommand(projectPath: string, workdir: string, env: seq<(string, string)>,
                    imageName: string, command: seq<string>) returns (argv: seq<string>)
    ensures IsRunArgv(argv, projectPath, workdir, env, imageName, command)
  {
    var b := new ListBuilder();
    b.Add("docker");
    b.Add("run");
    b.Add("-i");
    b.Add("--rm");
    b.Add("-v");
    b.Add(MountSpec(projectPath));
    b.Add("-w");
    b.Add(workdir);
    ghost var head := b.items;
    assert head == RunHead(projectPath, workdir);
    var i := 0;
    while i < |env|
      invariant 0 <= i <= |env|
      invariant b.items == head + EnvFlags(env[..i])
    {
      b.Add("-e");
      b.Add(EnvArg(env[i]));
      EnvFlagsStep(head, env, i);
      i := i + 1;
    }
    assert env[..|env|] == env;
    b.Add(imageName);
    b.AddAll(command);
    argv := b.items;
    RunArgvLayout(argv, projectPath, workdir, env, imageName, command);
  }

  /** The run vector of the example with project path `/work/proj`, one
      variable `FOO=bar`, image `digdag-project-7:abcd1234` and inner command
      `./run.sh`. */
  lemma RunArgvExample(argv: seq<string>)
    requires IsRunArgv(argv, "/work/proj", "/work/proj", [("FOO", "bar")], "digdag-project-7:abcd1234", ["./run.sh"])
    ensures argv == ["docker", "run", "-i", "--rm", "-v", "/work/proj:/work/proj:rw", "-w", "/work/proj",
                     "-e", "FOO=bar", "digdag-project-7:abcd1234", "./run.sh"]
  {
    var env := [("FOO", "bar")];
    assert env[0] == ("FOO", "bar");
    assert MountSpec("/work/proj") == "/work/proj:/work/proj:rw";
    assert EnvArg(env[0]) == "FOO=bar";
    assert argv == argv[..8] + [argv[8], argv[9], argv[10]] + argv[11..];
  }

  /** `docker build -f <dockerfile> --force-rm -t <imageName> <projectPath>`. */
  function BuildArgv(dockerfilePath: string, imageName: string, projectPath: string): seq<string>
  {
    ["docker", "build", "-f", dockerfilePath, "--force-rm", "-t", imageName, projectPath]
  }

  /** The builder steps of `buildImage` that assemble the build vector. */
  method BuildCommand(dockerfilePath: string, imageName: string, projectPath: string) returns (argv: seq<string>)
    ensures argv == BuildArgv(dockerfilePath, imageName, projectPath)
  {
    var command := new ListBuilder();
    command.Add("docker");
    command.Add("build");
    command.Add("-f");
    command.Add(dockerfilePath);
    command.Add("--force-rm");
    command.Add("-t");
    command.Add(imageName);
    command.Add(projectPath);
    argv := command.items;
  }

  /** `docker pull <imageName>`. */
  function PullArgv(imageName: string): seq<string>
  {
    ["docker", "pull", imageName]
  }
}
