// The idemKey protocol inside one session's sandbox: mkdir of the key directory is the first-run
// lock, its winner spawns the command, and everyone reads the same files
// (packages/ports/sandbox/src/drivers/subprocess.ts, packages/sessions/src/exec.ts).
module Sandbox {
  import opened Events
  import opened OutputFiles

  // Made: the lock is taken but no command was spawned (yet, or ever, if its owner died).
  datatype Dir = Made | Spawned(call: ToolCall, files: Files)

  datatype Spawn = Spawn(key: IdemKey, call: ToolCall)

  // The key directories, and every spawn there ever was.
  datatype Box = Box(dirs: map<IdemKey, Dir>, spawns: seq<Spawn>)

  const EmptyBox := Box(map[], [])

  function MakeDir(b: Box, k: IdemKey): Box
    requires k !in b.dirs
  {
    b.(dirs := b.dirs[k := Made])
  }

  function SpawnIn(b: Box, k: IdemKey, call: ToolCall): Box {
    Box(b.dirs[k := Spawned(call, NoFiles)], b.spawns + [Spawn(k, call)])
  }

  predicate CanEvolve(b: Box, k: IdemKey, files: Files) {
    k in b.dirs && b.dirs[k].Spawned? && Evolves(b.dirs[k].files, files)
  }

  function Evolve(b: Box, k: IdemKey, files: Files): Box
    requires k in b.dirs && b.dirs[k].Spawned?
  {
    b.(dirs := b.dirs[k := b.dirs[k].(files := files)])
  }

  predicate Finished(b: Box, k: IdemKey) {
    k in b.dirs && b.dirs[k].Spawned? && b.dirs[k].files.exit.Stamped?
  }

  // The command run under k has exited and every reader reports `res`.
  predicate BoxReports(b: Box, k: IdemKey, res: ExecResult) {
    && Finished(b, k)
    && Report(b.dirs[k].files) == res
  }

  // No key was spawned twice, and the directories record exactly the spawns.
  ghost predicate SpawnedOnce(b: Box) {
    && (forall i, j :: 0 <= i < j < |b.spawns| ==> b.spawns[i].key != b.spawns[j].key)
    && (forall i :: 0 <= i < |b.spawns| ==>
          var sp := b.spawns[i];
          sp.key in b.dirs && b.dirs[sp.key].Spawned? && b.dirs[sp.key].call == sp.call)
  }

  // b' can be seen at or after b.
  ghost predicate BoxLater(b: Box, b': Box) {
    && b.spawns <= b'.spawns
    && (forall k :: k in b.dirs ==> k in b'.dirs)
    && (forall k :: k in b.dirs && b.dirs[k].Spawned? ==>
          b'.dirs[k].Spawned? && b'.dirs[k].call == b.dirs[k].call && Later(b.dirs[k].files, b'.dirs[k].files))
  }

  lemma ReportsPersist(b: Box, b': Box, k: IdemKey, res: ExecResult)
    requires BoxLater(b, b') && BoxReports(b, k, res)
    ensures BoxReports(b', k, res)
  {
  }

  // ------------------------------------------------------ the sandbox and the log

  // `call` is what the assistant message at the key's place in the log asked for.
  ghost predicate CallAt(log: Log, key: IdemKey, call: ToolCall) {
    && 1 <= key.seqNo <= |log| && key.index == 0
    && log[key.seqNo - 1].payload.AssistantMessage?
    && log[key.seqNo - 1].payload.toolCalls != []
    && log[key.seqNo - 1].payload.toolCalls[0] == call
  }

  // Directories exist only for calls already in the log, and only that call is run there.
  ghost predicate BoxFollowsLog(box: Box, log: Log) {
    && SpawnedOnce(box)
    && (forall k :: k in box.dirs ==> exists call :: CallAt(log, k, call))
    && (forall k :: k in box.dirs && box.dirs[k].Spawned? ==> CallAt(log, k, box.dirs[k].call))
  }

  // Every recorded result is what the one run under its key reports.
  ghost predicate ResultsReported(box: Box, log: Log) {
    forall i :: 0 <= i < |log| && log[i].payload.ToolResult? ==>
      BoxReports(box, log[i].payload.idemKey, log[i].payload.result)
  }

  lemma CallPersists(log: Log, log': Log, k: IdemKey, call: ToolCall)
    requires log <= log' && CallAt(log, k, call)
    ensures CallAt(log', k, call)
  {
  }

  lemma BoxFollowsLonger(box: Box, log: Log, log': Log)
    requires BoxFollowsLog(box, log) && log <= log'
    ensures BoxFollowsLog(box, log')
  {
    forall k | k in box.dirs ensures exists call :: CallAt(log', k, call) {
      var call :| CallAt(log, k, call);
      CallPersists(log, log', k, call);
    }
  }

  lemma ResultsPersist(box: Box, box': Box, log: Log)
    requires ResultsReported(box, log) && BoxLater(box, box')
    ensures ResultsReported(box', log)
  {
    forall i | 0 <= i < |log| && log[i].payload.ToolResult?
      ensures BoxReports(box', log[i].payload.idemKey, log[i].payload.result)
    {
      ReportsPersist(box, box', log[i].payload.idemKey, log[i].payload.result);
    }
  }

  // The three ways the sandbox changes.
  lemma MadeFollowsLog(box: Box, log: Log, key: IdemKey, call: ToolCall)
    requires BoxFollowsLog(box, log) && key !in box.dirs && CallAt(log, key, call)
    ensures BoxFollowsLog(MakeDir(box, key), log) && BoxLater(box, MakeDir(box, key))
  {
  }

  lemma SpawnFollowsLog(box: Box, log: Log, key: IdemKey, call: ToolCall)
    requires BoxFollowsLog(box, log) && key in box.dirs && box.dirs[key] == Made && CallAt(log, key, call)
    ensures BoxFollowsLog(SpawnIn(box, key, call), log) && BoxLater(box, SpawnIn(box, key, call))
  {
  }

  lemma EvolveFollowsLog(box: Box, log: Log, key: IdemKey, files: Files)
    requires BoxFollowsLog(box, log) && CanEvolve(box, key, files)
    ensures BoxFollowsLog(Evolve(box, key, files), log) && BoxLater(box, Evolve(box, key, files))
  {
  }
}
