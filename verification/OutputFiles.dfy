// The files a detached command leaves in its key directory: `out` grows while the command runs and
// is final before `exit` appears; `exit` is opened empty and then stamped once with the code.
module OutputFiles {
  import opened Prelude
  import opened Events

  const MAX_OUTPUT_BYTES: nat := 200_000

  datatype ExitFile = Absent | Opened | Stamped(code: nat)

  datatype Files = Files(out: Option<seq<byte>>, exit: ExitFile)

  const NoFiles := Files(None, Absent)

  // An absent `out` reads like an empty one.
  function Bytes(f: Files): seq<byte> { if f.out.Some? then f.out.value else [] }

  // One atomic action of the running command.
  predicate Evolves(f: Files, g: Files) {
    || (f.exit.Absent? && f.out.None? && g == f.(out := Some([])))
    || (f.exit.Absent? && f.out.Some? && g.out.Some? && f.out.value <= g.out.value && g.exit.Absent?)
    || (f.exit.Absent? && g == f.(exit := Opened))
    || (f.exit.Opened? && g.exit.Stamped? && g.out == f.out)
  }

  // g can be seen at or after f.
  ghost predicate Later(f: Files, g: Files) {
    && Bytes(f) <= Bytes(g)
    && (!f.exit.Absent? ==> Bytes(g) == Bytes(f) && !g.exit.Absent?)
    && (f.exit.Stamped? ==> g.exit == f.exit)
  }

  // A schedule of the command's actions: what the files hold at every instant.
  type Timeline = nat -> Files

  ghost predicate Legal(at: Timeline) {
    forall t: nat :: at(t + 1) == at(t) || Evolves(at(t), at(t + 1))
  }

  lemma {:induction false} TimelineMonotone(at: Timeline, s: nat, t: nat)
    requires Legal(at) && s <= t
    ensures Later(at(s), at(t))
    decreases t
  {
    if s < t {
      TimelineMonotone(at, s, t - 1);
      assert at(t - 1 + 1) == at(t);
    }
  }

  // What every reader of a finished command reports: the first 200000 bytes, the stamped code, and
  // whether bytes were clipped.
  function Report(f: Files): ExecResult
    requires f.exit.Stamped?
  {
    var n := |Bytes(f)|;
    ExecResult(Bytes(f)[..Min(n, MAX_OUTPUT_BYTES)], f.exit.code, n > MAX_OUTPUT_BYTES)
  }
}
