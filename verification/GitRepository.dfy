/**
 * A git repository as the publisher sees it (src/modules/git/git-exec.ts): a history of commits, a set of
 * staged paths and a set of paths that differ from HEAD. Any command may fail, and a commit may land and
 * still be reported as failed.
 */
module GitRepository {
  import opened Base

  datatype Commit = Commit(sha: string, changed: set<string>)

  datatype Fate = Works | Fails | FailsAfterEffect

  class Repository {
    const fate: nat -> Fate            // what happens to the n-th git command
    const stagedAnyway: nat -> set<string>   // what a failing `git add` may already have staged
    const name: nat -> string          // sha of the n-th commit of the history
    var commands: nat
    var history: seq<Commit>
    var index: set<string>
    var dirty: set<string>

    constructor (fate: nat -> Fate, stagedAnyway: nat -> set<string>, name: nat -> string,
                 history: seq<Commit>, index: set<string>, dirty: set<string>)
      ensures this.fate == fate && this.stagedAnyway == stagedAnyway && this.name == name && commands == 0
      ensures this.history == history && this.index == index && this.dirty == dirty
    {
      this.fate, this.stagedAnyway, this.name := fate, stagedAnyway, name;
      this.commands, this.history, this.index, this.dirty := 0, history, index, dirty;
    }

    method Reset() returns (ok: bool)
      modifies this`index, this`commands
      ensures commands == old(commands) + 1 && (ok <==> fate(old(commands)) == Works)
      ensures ok ==> index == {}
      ensures !ok ==> index == old(index)
    {
      ok := fate(commands) == Works;
      commands := commands + 1;
      if ok {
        index := {};
      }
    }

    /** `git --literal-pathspecs add -- files`: only paths of the list are ever staged. */
    method Add(files: seq<string>) returns (ok: bool)
      modifies this`index, this`commands
      ensures commands == old(commands) + 1 && (ok <==> fate(old(commands)) == Works)
      ensures index <= old(index) + set f | f in files
      ensures ok ==> index == old(index) + (set f | f in files && f in dirty)
    {
      var wanted := set f | f in files && f in dirty;
      ok := fate(commands) == Works;
      index := index + (if ok then wanted else wanted * stagedAnyway(commands));
      commands := commands + 1;
    }

    /** `git commit`: records exactly what is staged, and nothing when nothing is. */
    method DoCommit() returns (ok: bool)
      modifies this
      ensures commands == old(commands) + 1
      ensures var landed := fate(old(commands)) != Fails && old(index) != {};
              && ok == (landed && fate(old(commands)) == Works)
              && (!landed ==> history == old(history) && index == old(index) && dirty == old(dirty))
              && (landed ==> history == old(history) + [Commit(name(|old(history)|), old(index))]
                             && index == {} && dirty == old(dirty) - old(index))
    {
      var f := fate(commands);
      commands := commands + 1;
      if f == Fails || index == {} {
        return false;
      }
      history := history + [Commit(name(|history|), index)];
      dirty := dirty - index;
      index := {};
      ok := f == Works;
    }

    method RevParseHead() returns (r: Option<string>)
      modifies this`commands
      ensures commands == old(commands) + 1
      ensures r == if fate(old(commands)) == Works && history != [] then Some(history[|history| - 1].sha) else None
    {
      r := if fate(commands) == Works && history != [] then Some(history[|history| - 1].sha) else None;
      commands := commands + 1;
    }

    /** A command that changes nothing. */
    method Look() returns (ok: bool)
      modifies this`commands
      ensures commands == old(commands) + 1 && (ok <==> fate(old(commands)) == Works)
    {
      ok := fate(commands) == Works;
      commands := commands + 1;
    }
  }
}
