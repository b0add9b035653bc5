/**
 * The lifecycle coordinator (`SistemaMOM.iniciarOuReiniciarSistema` and
 * `pararThreadsAntigas`) as a state machine over the list of active thread handles.
 * The producers are started by a separate, untracked thread after a delay; each such
 * launch that has not happened yet is kept in `pending` (the file path it will use).
 */
module Coordinator {
  import opened JavaText
  import opened Producer

  datatype Role =
    | MonitorRole(words: seq<string>)
    | WorkerRole(id: int, words: seq<string>)
    | ProducerRole(path: string, mode: Mode)

  /** A started thread; `alive` turns false when the thread ends on its own. */
  datatype Handle = Handle(role: Role, alive: bool)

  datatype State = State(active: seq<Handle>, pending: seq<string>)

  datatype StartOutcome =
    | Rejected(state: State)
    | Running(state: State, interrupted: seq<Role>)

  const Idle := State([], [])

  /** The roles of the handles still alive, in list order: a role is listed exactly
      when some alive handle carries it, and once for each such handle. */
  function AliveRoles(hs: seq<Handle>): (rs: seq<Role>)
    ensures |rs| <= |hs|
    ensures forall role {:trigger role in rs} :: role in rs <==> Handle(role, true) in hs
    ensures forall role {:trigger multiset(rs)[role]} :: multiset(rs)[role] == multiset(hs)[Handle(role, true)]
    decreases |hs|
  {
    if |hs| == 0 then []
    else
      assert hs == [hs[0]] + hs[1..];
      (if hs[0].alive then [hs[0].role] else []) + AliveRoles(hs[1..])
  }

  /** `pararThreadsAntigas`: the list is emptied; pending producer launches are not
      tracked, so they survive. */
  function Stop(s: State): (r: (State, seq<Role>))
    ensures r.0.active == [] && r.0.pending == s.pending
    ensures |r.1| <= |s.active|
  {
    (State([], s.pending), AliveRoles(s.active))
  }

  /** Stop interrupts exactly the roles of the alive handles, one interrupt per alive handle. */
  lemma StopInterruptsExactlyAlive(s: State)
    ensures forall k :: 0 <= k < |s.active| && s.active[k].alive ==> s.active[k].role in Stop(s).1
    ensures forall role :: role in Stop(s).1 <==> Handle(role, true) in s.active
    ensures forall role :: multiset(Stop(s).1)[role] == multiset(s.active)[Handle(role, true)]
  {
  }

  /** The handles started synchronously: the monitor, then workers 1 to 4. */
  function StartupHandles(words: seq<string>): seq<Handle> {
    [Handle(MonitorRole(words), true)]
    + [Handle(WorkerRole(1, words), true), Handle(WorkerRole(2, words), true),
       Handle(WorkerRole(3, words), true), Handle(WorkerRole(4, words), true)]
  }

  /** `iniciarOuReiniciarSistema`: an empty field aborts with nothing changed; otherwise
      the old handles are stopped, the monitor and workers 1..4 are started on the word
      list `split(",")` of the word field, and a producer launch is scheduled. */
  function Start(s: State, path: string, field: string): (o: StartOutcome)
    ensures path == "" || field == "" ==> o == Rejected(s)
    ensures path != "" && field != "" ==> o.Running?
    ensures o.Running? ==>
      && |o.state.active| == 5
      && o.state.active[0] == Handle(MonitorRole(Split(field)), true)
      && (forall i :: 1 <= i <= 4 ==> o.state.active[i] == Handle(WorkerRole(i, Split(field)), true))
      && o.state.pending == s.pending + [path]
      && o.interrupted == Stop(s).1
  {
    if path == "" || field == "" then Rejected(s)
    else
      var (stopped, interrupted) := Stop(s);
      Running(State(stopped.active + StartupHandles(Split(field)), stopped.pending + [path]), interrupted)
  }

  /** The delayed launch i fires: a `PARES` then an `IMPARES` producer on its file path are
      appended to the list. */
  function Launch(s: State, i: nat): (r: State)
    requires i < |s.pending|
    ensures r.active == s.active
      + [Handle(ProducerRole(s.pending[i], Pares), true), Handle(ProducerRole(s.pending[i], Impares), true)]
    ensures r.pending == s.pending[..i] + s.pending[i + 1..]
  {
    State(s.active + [Handle(ProducerRole(s.pending[i], Pares), true),
                      Handle(ProducerRole(s.pending[i], Impares), true)],
          s.pending[..i] + s.pending[i + 1..])
  }

  /** A thread ends on its own (a producer reaching the end of its file, say). */
  function Finish(s: State, i: nat): (r: State)
    requires i < |s.active|
    ensures |r.active| == |s.active| && r.pending == s.pending
    ensures !r.active[i].alive && r.active[i].role == s.active[i].role
    ensures forall k :: 0 <= k < |s.active| && k != i ==> r.active[k] == s.active[k]
  {
    State(s.active[i := Handle(s.active[i].role, false)], s.pending)
  }

  /** The full plan after one restart and its launch, for a given file and word list. */
  function FullPlan(path: string, words: seq<string>): seq<Handle> {
    StartupHandles(words)
      + [Handle(ProducerRole(path, Pares), true), Handle(ProducerRole(path, Impares), true)]
  }

  /** Restarting with no launch pending and then letting the launch fire leaves exactly
      seven handles: one monitor, workers 1..4, and one `PARES` and one `IMPARES` producer on
      the same file, all with the same word list. */
  lemma RestartWhenSettledLeavesSeven(s: State, path: string, field: string)
    requires s.pending == [] && path != "" && field != ""
    ensures var s' := Launch(Start(s, path, field).state, 0);
      s'.active == FullPlan(path, Split(field)) && |s'.active| == 7 && s'.pending == []
  {
  }

  // ---------------------------------------------------------------------------
  // A restart during the launch delay.

  /** As written: two restarts less than the delay apart, starting from a settled state,
      leave two launches pending, and once both fire there are nine handles, with a `PARES`
      producer for the first file as well as for the second. */
  lemma RestartDuringDelayDuplicatesProducers(s: State, p1: string, f1: string, p2: string, f2: string)
    requires s.pending == [] && p1 != "" && f1 != "" && p2 != "" && f2 != ""
    ensures var s2 := Start(Start(s, p1, f1).state, p2, f2).state;
      s2.pending == [p1, p2]
      && var s3 := Launch(Launch(s2, 0), 0);
      |s3.active| == 9
      && s3.active[5] == Handle(ProducerRole(p1, Pares), true)
      && s3.active[7] == Handle(ProducerRole(p2, Pares), true)
  {
    var s2 := Start(Start(s, p1, f1).state, p2, f2).state;
    TwoRestartsLeaveTwoPending(s, p1, f1, p2, f2);
    TwoLaunchesAppendFour(s2, p1, p2);
  }

  lemma TwoRestartsLeaveTwoPending(s: State, p1: string, f1: string, p2: string, f2: string)
    requires s.pending == [] && p1 != "" && f1 != "" && p2 != "" && f2 != ""
    ensures var s2 := Start(Start(s, p1, f1).state, p2, f2).state;
      |s2.active| == 5 && s2.pending == [p1, p2]
  {
    var s1 := Start(s, p1, f1).state;
    StartShape(s, p1, f1);
    StartShape(s1, p2, f2);
  }

  lemma StartShape(s: State, path: string, field: string)
    requires path != "" && field != ""
    ensures |Start(s, path, field).state.active| == 5
    ensures Start(s, path, field).state.pending == s.pending + [path]
  {
  }

  lemma TwoLaunchesAppendFour(s2: State, p1: string, p2: string)
    requires |s2.active| == 5 && s2.pending == [p1, p2]
    ensures var s3 := Launch(Launch(s2, 0), 0);
      |s3.active| == 9
      && s3.active[5] == Handle(ProducerRole(p1, Pares), true)
      && s3.active[7] == Handle(ProducerRole(p2, Pares), true)
  {
    var l1 := Launch(s2, 0);
    assert |l1.active| == 7 && l1.active[5] == Handle(ProducerRole(p1, Pares), true);
    assert l1.pending == [p2];
  }

  /** Two alive handles with the same role are both interrupted by the next stop. */
  lemma SharedRoleInterruptedTwice(s: State, i: nat, j: nat)
    requires i < j < |s.active| && s.active[i].alive && s.active[i] == s.active[j]
    ensures multiset(Stop(s).1)[s.active[i].role] >= 2
  {
    var h := s.active[i];
    var hs := s.active;
    assert hs == hs[..j] + hs[j..];
    assert hs[..j][i] == h && hs[j..][0] == h;
    assert multiset(hs)[h] == multiset(hs[..j])[h] + multiset(hs[j..])[h];
    assert h == Handle(h.role, true);
  }

  /** Two restarts on the same file within the delay leave two alive `PARES` producers on
      that file, and the next restart has to interrupt both of them. */
  lemma RestartAfterDelayInterruptsBothProducers(s: State, p: string, f: string)
    requires s.pending == [] && p != "" && f != ""
    ensures var s3 := Launch(Launch(Start(Start(s, p, f).state, p, f).state, 0), 0);
      multiset(Stop(s3).1)[ProducerRole(p, Pares)] >= 2
  {
    RestartDuringDelayDuplicatesProducers(s, p, f, p, f);
    var s3 := Launch(Launch(Start(Start(s, p, f).state, p, f).state, 0), 0);
    SharedRoleInterruptedTwice(s3, 5, 7);
  }

  /** Corrected restart: stopping also cancels the launches still waiting, so only the
      new run's launch remains. */
  function StartFixed(s: State, path: string, field: string): (o: StartOutcome)
    ensures path == "" || field == "" ==> o == Rejected(s)
    ensures path != "" && field != "" ==>
      o.Running? && o.state == State(StartupHandles(Split(field)), [path])
  {
    if path == "" || field == "" then Rejected(s)
    else
      var (stopped, interrupted) := Stop(s);
      Running(State(stopped.active + StartupHandles(Split(field)), [path]), interrupted)
  }

  /** With the corrected restart, from any state, the launch that follows leaves exactly one
      monitor, workers 1..4 and one producer per parity, and restarting again gives the same state. */
  lemma RestartFixedYieldsOneOfEachRole(s: State, path: string, field: string)
    requires path != "" && field != ""
    ensures var s' := StartFixed(s, path, field).state;
      Launch(s', 0).active == FullPlan(path, Split(field)) && Launch(s', 0).pending == []
      && StartFixed(s', path, field).state == s'
  {
  }
}
