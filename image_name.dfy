/** The content-addressed image name `digdag-project-<id>:<digest>`. */
module ImageName {
  import opened JavaStrings

  const ProjectPrefix: string := "digdag-project-"

  /** The repository part of a built image's name: it depends on the project
      id alone and never holds a colon. */
  function ProjectName(projectId: int): (r: string)
    ensures ':' !in r
    ensures StartsWith(r, ProjectPrefix)
  {
    ProjectPrefix + IntToString(projectId)
  }

  /** `uniqueImageName` once the digest is known: splitting the result at
      its first colon gives back the project's name and the digest, whatever
      characters the digest holds. */
  function UniqueImageName(projectId: int, digest: string): (r: string)
    ensures SplitFirst(r, ':') == [ProjectName(projectId), digest]
  {
    SplitFirstJoin(ProjectName(projectId), digest, ':');
    ProjectName(projectId) + [':'] + digest
  }

  /** Two projects never share an image name, and within one project the
      name changes exactly when the digest does. */
  lemma UniqueImageNameInjective(id1: int, digest1: string, id2: int, digest2: string)
    ensures UniqueImageName(id1, digest1) == UniqueImageName(id2, digest2)
        <==> id1 == id2 && digest1 == digest2
  {
    if UniqueImageName(id1, digest1) == UniqueImageName(id2, digest2) {
      assert ProjectName(id1) == ProjectName(id2);
      assert ProjectName(id1)[|ProjectPrefix|..] == IntToString(id1);
      assert ProjectName(id2)[|ProjectPrefix|..] == IntToString(id2);
      IntToStringInjective(id1, id2);
    }
  }
}
