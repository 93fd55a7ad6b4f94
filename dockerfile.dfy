/** The Dockerfile `buildImage` writes when the probe misses: its text and
    where it goes. */
module Dockerfile {
  import opened JavaStrings
  import opened Builders

  // ---------------------------------------------------------------------------
  // Path
  // ---------------------------------------------------------------------------

  /** The directory for generated build files, relative to the project. */
  const TmpDir: string := ".digdag/tmp/docker"

  const FilePrefix: string := "Dockerfile."

  /** `Path.resolve` of a relative `child` against `dir`, where `dir` stands
      for `Path.toString()`: the empty path, or a path whose only possible
      trailing separator is that of the root `/`. */
  function Resolve(dir: string, child: string): string
  {
    if dir == "" then child
    else if dir[|dir| - 1] == '/' then dir + child
    else dir + "/" + child
  }

  /** `"Dockerfile." + imageName.replaceAll(":", ".")`: the image name with
      each colon turned into a dot, so the file name holds no colon. */
  function DockerfileName(imageName: string): (f: string)
    ensures StartsWith(f, FilePrefix) && |f| == |FilePrefix| + |imageName|
    ensures ':' !in f
    ensures forall i :: 0 <= i < |imageName| ==>
      f[|FilePrefix| + i] == (if imageName[i] == ':' then '.' else imageName[i])
  {
    var r := ReplaceChar(imageName, ':', '.');
    assert ':' !in r;
    var f := FilePrefix + r;
    assert f[..|FilePrefix|] == FilePrefix;
    assert forall i :: 0 <= i < |r| ==> f[|FilePrefix| + i] == r[i];
    f
  }

  /** Where the Dockerfile for `imageName` is written: the file
      `DockerfileName(imageName)` in `<projectPath>/.digdag/tmp/docker`. */
  function DockerfilePath(projectPath: string, imageName: string): (r: string)
    ensures projectPath == "" ==> r == TmpDir + "/" + DockerfileName(imageName)
    ensures projectPath != "" && projectPath[|projectPath| - 1] == '/' ==>
      r == projectPath + TmpDir + "/" + DockerfileName(imageName)
    ensures projectPath != "" && projectPath[|projectPath| - 1] != '/' ==>
      r == projectPath + "/" + TmpDir + "/" + DockerfileName(imageName)
  {
    var dir := Resolve(projectPath, TmpDir);
    assert dir != "" && dir[|dir| - 1] != '/';
    Resolve(dir, DockerfileName(imageName))
  }

  // ---------------------------------------------------------------------------
  // Text
  // ---------------------------------------------------------------------------

  /** The first line: the base image with every newline removed. */
  function FromLine(baseImageName: string): string
  {
    "FROM " + RemoveChar(baseImageName, '\n')
  }

  function RunLine(piece: string): string
  {
    "RUN " + piece + "\n"
  }

  /** One `RUN` line per piece, in order. */
  function RunLines(pieces: seq<string>): string
    decreases |pieces|
  {
    if pieces == [] then "" else RunLine(pieces[0]) + RunLines(pieces[1..])
  }

  /** The lines of every build command in list order, each command split on
      `"\n"` the way `String.split` does it. */
  function Pieces(buildCommands: seq<string>): seq<string>
    decreases |buildCommands|
  {
    if buildCommands == [] then []
    else JavaSplit(buildCommands[0], '\n') + Pieces(buildCommands[1..])
  }

  /** No piece holds a newline. */
  lemma {:induction false} PiecesSingleLine(buildCommands: seq<string>)
    ensures forall i :: 0 <= i < |Pieces(buildCommands)| ==> '\n' !in Pieces(buildCommands)[i]
    decreases |buildCommands|
  {
    if buildCommands != [] {
      JavaSplitPieces(buildCommands[0], '\n');
      PiecesSingleLine(buildCommands[1..]);
    }
  }

  /** The whole Dockerfile. */
  function DockerfileText(baseImageName: string, buildCommands: seq<string>): string
  {
    FromLine(baseImageName) + "\n" + RunLines(Pieces(buildCommands))
  }

  /** The `RUN` instruction of each piece. */
  function Instructions(pieces: seq<string>): (r: seq<string>)
    ensures |r| == |pieces|
    ensures forall i :: 0 <= i < |pieces| ==> r[i] == "RUN " + pieces[i]
  {
    seq(|pieces|, i requires 0 <= i < |pieces| => "RUN " + pieces[i])
  }

  lemma {:induction false} RunLinesAppend(pieces: seq<string>, p: string)
    ensures RunLines(pieces + [p]) == RunLines(pieces) + RunLine(p)
    decreases |pieces|
  {
    if pieces == [] {
      assert pieces + [p] == [p];
      assert [p][1..] == [];
    } else {
      assert (pieces + [p])[0] == pieces[0];
      assert (pieces + [p])[1..] == pieces[1..] + [p];
      RunLinesAppend(pieces[1..], p);
    }
  }

  lemma {:induction false} RunLinesConcat(a: seq<string>, b: seq<string>)
    ensures RunLines(a + b) == RunLines(a) + RunLines(b)
    decreases |a|
  {
    if a == [] {
      assert a + b == b;
    } else {
      assert (a + b)[0] == a[0];
      assert (a + b)[1..] == a[1..] + b;
      RunLinesConcat(a[1..], b);
    }
  }

  /** The pieces of a list of commands are those of its parts, in order. */
  lemma {:induction false} PiecesConcat(a: seq<string>, b: seq<string>)
    ensures Pieces(a + b) == Pieces(a) + Pieces(b)
    decreases |a|
  {
    if a == [] {
      assert a + b == b;
    } else {
      assert (a + b)[0] == a[0];
      assert (a + b)[1..] == a[1..] + b;
      PiecesConcat(a[1..], b);
    }
  }

  lemma PiecesAppend(cmds: seq<string>, cmd: string)
    ensures Pieces(cmds + [cmd]) == Pieces(cmds) + JavaSplit(cmd, '\n')
  {
    PiecesConcat(cmds, [cmd]);
    assert [cmd][1..] == [];
    assert Pieces([cmd]) == JavaSplit(cmd, '\n') + [];
  }

  /** Reading `head + "\n" + RunLines(pieces)` back line by line. */
  lemma {:induction false} LinesOfRunLines(head: string, pieces: seq<string>)
    requires '\n' !in head
    requires forall i :: 0 <= i < |pieces| ==> '\n' !in pieces[i]
    ensures SplitAll(head + "\n" + RunLines(pieces), '\n') == [head] + Instructions(pieces) + [""]
    decreases |pieces|
  {
    SplitAllPrefix(head, RunLines(pieces), '\n');
    assert head + "\n" + RunLines(pieces) == head + ['\n'] + RunLines(pieces);
    if pieces == [] {
      assert Instructions(pieces) == [];
    } else {
      var next := "RUN " + pieces[0];
      assert '\n' !in next by {
        assert forall k :: 0 <= k < |next| ==> next[k] == (if k < 4 then "RUN "[k] else pieces[0][k - 4]);
      }
      assert RunLines(pieces) == next + "\n" + RunLines(pieces[1..]);
      LinesOfRunLines(next, pieces[1..]);
      assert Instructions(pieces) == [next] + Instructions(pieces[1..]);
    }
  }

  /** Read back line by line, the Dockerfile is exactly the `FROM` line, then
      one `RUN` line for each piece of each build command in order, and
      nothing else (the file ends with a newline). */
  lemma DockerfileLines(baseImageName: string, buildCommands: seq<string>)
    ensures SplitAll(DockerfileText(baseImageName, buildCommands), '\n')
        == [FromLine(baseImageName)] + Instructions(Pieces(buildCommands)) + [""]
  {
    var from := FromLine(baseImageName);
    var stripped := RemoveChar(baseImageName, '\n');
    assert '\n' !in from by {
      assert forall k :: 0 <= k < |from| ==> from[k] == (if k < 5 then "FROM "[k] else stripped[k - 5]);
    }
    PiecesSingleLine(buildCommands);
    LinesOfRunLines(from, Pieces(buildCommands));
  }

  /** Build commands of one line each are the pieces themselves, one `RUN`
      line per command in list order. */
  lemma {:induction false} OneLineCommands(buildCommands: seq<string>)
    requires forall i :: 0 <= i < |buildCommands| ==> '\n' !in buildCommands[i]
    ensures Pieces(buildCommands) == buildCommands
    decreases |buildCommands|
  {
    if buildCommands != [] {
      JavaSplitNoSeparator(buildCommands[0], '\n');
      OneLineCommands(buildCommands[1..]);
      assert [buildCommands[0]] + buildCommands[1..] == buildCommands;
    }
  }

  /** A build command of two lines becomes two pieces, in order. */
  lemma TwoLineCommand(first: string, second: string)
    requires '\n' !in first && '\n' !in second && second != ""
    ensures JavaSplit(first + "\n" + second, '\n') == [first, second]
  {
    var s := first + "\n" + second;
    assert s == first + ['\n'] + second;
    SplitAllPrefix(first, second, '\n');
    SplitAllNoSeparator(second, '\n');
    assert SplitAll(s, '\n') == [first, second];
  }

  /** An empty line inside a build command is kept as an empty piece, which
      becomes a bare `RUN ` line. */
  lemma InteriorEmptyLineKept(first: string, second: string)
    requires '\n' !in first && '\n' !in second && second != ""
    ensures JavaSplit(first + "\n\n" + second, '\n') == [first, "", second]
  {
    var s := first + "\n\n" + second;
    assert s == first + ['\n'] + ("" + ['\n'] + second);
    SplitAllPrefix(first, "" + ['\n'] + second, '\n');
    SplitAllPrefix("", second, '\n');
    SplitAllNoSeparator(second, '\n');
    assert SplitAll(s, '\n') == [first, "", second];
  }

  /** A newline at the end of a build command adds no `RUN` line. */
  lemma TrailingNewlineDropped(line: string)
    requires '\n' !in line && line != ""
    ensures JavaSplit(line + "\n", '\n') == [line]
  {
    SplitAllTerminated(line, '\n');
    assert line + "\n" == line + ['\n'] && line + "\n" != "";
    assert [line, ""][..1] == [line];
    assert DropTrailingEmpty([line, ""]) == DropTrailingEmpty([line]) == [line];
  }

  // ---------------------------------------------------------------------------
  // Writing
  // ---------------------------------------------------------------------------

  /** The Dockerfile as `buildImage` writes it through `out`: the `FROM`
      line, then the nested loops over the build commands and their lines. */
  method WriteDockerfile(out: TextWriter, baseImageName: string, buildCommands: seq<string>)
    modifies out
    ensures out.text == old(out.text) + DockerfileText(baseImageName, buildCommands)
  {
    out.Write("FROM ");
    out.Write(RemoveChar(baseImageName, '\n'));
    out.Write("\n");
    WriteBuildCommands(out, buildCommands);
    DockerfileTextParts(old(out.text), baseImageName, buildCommands);
  }

  /** The Dockerfile text in the order `WriteDockerfile` writes it. */
  lemma DockerfileTextParts(start: string, baseImageName: string, buildCommands: seq<string>)
    ensures start + DockerfileText(baseImageName, buildCommands)
        == (((start + "FROM ") + RemoveChar(baseImageName, '\n')) + "\n") + RunLines(Pieces(buildCommands))
  {
  }

  /** The outer loop: the `RUN` lines of each build command, in list order. */
  method WriteBuildCommands(out: TextWriter, buildCommands: seq<string>)
    modifies out
    ensures out.text == old(out.text) + RunLines(Pieces(buildCommands))
  {
    ghost var start := out.text;
    var i := 0;
    while i < |buildCommands|
      invariant 0 <= i <= |buildCommands|
      invariant out.text == start + RunLines(Pieces(buildCommands[..i]))
    {
      WriteRunLines(out, JavaSplit(buildCommands[i], '\n'));
      RunLinesStep(start, buildCommands, i);
      i := i + 1;
    }
    assert buildCommands[..|buildCommands|] == buildCommands;
  }

  /** One more build command adds the `RUN` lines of its pieces after what
      is already written. */
  lemma RunLinesStep(start: string, cmds: seq<string>, i: nat)
    requires i < |cmds|
    ensures start + RunLines(Pieces(cmds[..i + 1]))
        == (start + RunLines(Pieces(cmds[..i]))) + RunLines(JavaSplit(cmds[i], '\n'))
  {
    var done, lines := Pieces(cmds[..i]), JavaSplit(cmds[i], '\n');
    assert cmds[..i + 1] == cmds[..i] + [cmds[i]];
    PiecesAppend(cmds[..i], cmds[i]);
    RunLinesConcat(done, lines);
    var a, b := RunLines(done), RunLines(lines);
    assert start + (a + b) == (start + a) + b;
  }

  /** One more piece adds its `RUN` line after what is already written. */
  lemma RunLineStep(start: string, lines: seq<string>, j: nat)
    requires j < |lines|
    ensures start + RunLines(lines[..j + 1])
        == (((start + RunLines(lines[..j])) + "RUN ") + lines[j]) + "\n"
  {
    RunLinesAppend(lines[..j], lines[j]);
    assert lines[..j + 1] == lines[..j] + [lines[j]];
  }

  /** The inner loop: one `RUN` line for each piece of one build command. */
  method WriteRunLines(out: TextWriter, lines: seq<string>)
    modifies out
    ensures out.text == old(out.text) + RunLines(lines)
  {
    var j := 0;
    while j < |lines|
      invariant 0 <= j <= |lines|
      invariant out.text == old(out.text) + RunLines(lines[..j])
    {
      out.Write("RUN ");
      out.Write(lines[j]);
      out.Write("\n");
      RunLineStep(old(out.text), lines, j);
      j := j + 1;
    }
    assert lines[..|lines|] == lines;
  }
}
