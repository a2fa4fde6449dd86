/** Commit messages and plans (src/types.ts). */
module Plans {
  import opened Base

  datatype CommitMessage = CommitMessage(
    kind: string, scope: Option<string>, description: string, body: Option<string>, isBreaking: bool)

  /** One commit message and the files to stage for it. */
  datatype CommitPlan = CommitPlan(commit: CommitMessage, files: seq<string>)

  /** One commit that really landed, and the files planned for it. */
  datatype CommittedSha = CommittedSha(sha: string, files: seq<string>)

  function Files(plans: seq<CommitPlan>): seq<string> {
    if plans == [] then [] else plans[0].files + Files(plans[1..])
  }

  function Shas(cs: seq<CommittedSha>): seq<string> {
    seq(|cs|, i requires 0 <= i < |cs| => cs[i].sha)
  }
}
