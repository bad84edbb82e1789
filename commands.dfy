/** `ensureCommands`, the same in src/GitExtraTool.ts, src/GitExtraTool.js and
    dist/BitbucketTool.js: a set of commands known to be installed that only grows.
    Whether a command is installed is an oracle, the set `installed`. */
module Commands {
  import opened Effects

  /** `cmds.filter((cmd) => !this.cmds.has(cmd))`. */
  function Unknown(known: set<string>, cmds: seq<string>): (newCmds: seq<string>)
    ensures forall c <- newCmds :: c in cmds && c !in known
    ensures forall c <- cmds :: c !in known ==> c in newCmds
    ensures |newCmds| <= |cmds|
  {
    if cmds == [] then []
    else (if cmds[0] in known then [] else [cmds[0]]) + Unknown(known, cmds[1..])
  }

  /** `Promise.all` of the `commandExists` queries resolves exactly when every
      queried command is installed. */
  predicate AllInstalled(installed: set<string>, queried: seq<string>) {
    forall c <- queried :: c in installed
  }

  /** The set after `ensureCommands(cmds)` and how the call ends: a missing command
      rejects before anything is added, otherwise every queried command is added. */
  function Ensured(known: set<string>, installed: set<string>, cmds: seq<string>): (r: (set<string>, Completion))
    ensures known <= r.0
    ensures r.1.Returned? <==> forall c <- cmds :: c in known || c in installed
    ensures r.1.Returned? ==> forall c <- cmds :: c in r.0
    ensures r.1.Threw? ==> r.0 == known && r.1.failure == NotInstalled
    ensures r.0 <= known + (set c <- cmds)
  {
    var newCmds := Unknown(known, cmds);
    if AllInstalled(installed, newCmds) then (known + (set c <- newCmds), Returned) else (known, Threw(NotInstalled))
  }

  /** A second call with the same commands queries nothing. */
  lemma EnsureTwiceQueriesNothing(known: set<string>, installed: set<string>, cmds: seq<string>)
    requires Ensured(known, installed, cmds).1.Returned?
    ensures Unknown(Ensured(known, installed, cmds).0, cmds) == []
  {
    NothingUnknown(Ensured(known, installed, cmds).0, cmds);
  }

  lemma {:induction false} NothingUnknown(known: set<string>, cmds: seq<string>)
    requires forall c <- cmds :: c in known
    ensures Unknown(known, cmds) == []
  {
    if cmds != [] {
      NothingUnknown(known, cmds[1..]);
    }
  }

  /** The `this.cmds` set of one tool object, and the commands it has queried. */
  class CommandCache {
    var known: set<string>
    var queried: seq<string>

    constructor()
      ensures known == {} && queried == []
    {
      known, queried := {}, [];
    }

    /** `ensureCommands(cmds)`: query the unknown commands, then add them one by one. */
    method Ensure(cmds: seq<string>, installed: set<string>) returns (c: Completion)
      modifies this
      ensures (known, c) == Ensured(old(known), installed, cmds)
      ensures queried == old(queried) + Unknown(old(known), cmds)
    {
      var newCmds := Unknown(known, cmds);
      queried := queried + newCmds;
      if !AllInstalled(installed, newCmds) {
        return Threw(NotInstalled);
      }
      ghost var before := known;
      var i := 0;
      while i < |newCmds|
        invariant 0 <= i <= |newCmds|
        invariant known == before + (set k <- newCmds[..i])
        invariant queried == old(queried) + newCmds
      {
        assert newCmds[..i + 1] == newCmds[..i] + [newCmds[i]];
        known := known + {newCmds[i]};
        i := i + 1;
      }
      assert newCmds[..|newCmds|] == newCmds;
      c := Returned;
    }
  }
}
