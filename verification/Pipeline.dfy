/**
 The on-chain transaction pipeline: picker, signer, sender and verifier processes that share status rows.
 Each reads and writes in separate steps, so every interleaving of reads, writes, new rows and crashes is a run.
 */
module Pipeline {

  datatype Network = Bsc | Stellar

  datatype Status = Pending | Unsigned | Signed | Sent | Complete | Failed {
    predicate InProcess() { Unsigned? || Signed? || Sent? }

    predicate Final() { Complete? || Failed? }

    /** How many more writes a row in this status can see. */
    function Remaining(): nat {
      match this
      case Pending => 4
      case Unsigned => 3
      case Signed => 2
      case Sent => 1
      case _ => 0
    }
  }

  datatype Kind = Picker | Signer | Sender | Verifier

  /** A picker first finds nothing in process (`Clear`), then fetches; the others fetch at once. */
  datatype Local = Idle | Clear | Holds(id: nat)

  datatype Worker = Worker(network: Network, kind: Kind, local: Local)

  /** A transaction row; `writes` counts the status writes it has seen. */
  datatype Row = Row(network: Network, status: Status, writes: nat)

  datatype State = State(rows: seq<Row>, workers: seq<Worker>)

  datatype Event =
    | Insert(network: Network)
    | Check(w: nat)
    | Fetch(w: nat, id: nat)
    | FindNothing(w: nat)
    | Write(w: nat, status: Status)
    | Crash(w: nat)

  /** The status a worker's query asks for. */
  function Wants(kind: Kind): Status {
    match kind
    case Picker => Pending
    case Signer => Unsigned
    case Sender => Signed
    case Verifier => Sent
  }

  /** What a worker may write; only the Stellar picker can reject a transaction. */
  function Outcomes(network: Network, kind: Kind): set<Status> {
    match kind
    case Picker => if network.Stellar? then {Unsigned, Failed} else {Unsigned}
    case Signer => {Signed}
    case Sender => {Sent, Failed}
    case Verifier => {Complete, Failed}
  }

  predicate Found(rows: seq<Row>, network: Network, status: Status, id: nat) {
    id < |rows| && rows[id].network == network && rows[id].status == status
  }

  /** The signer's and the sender's queries are ordered by id. */
  predicate Fetched(rows: seq<Row>, network: Network, kind: Kind, id: nat) {
    && Found(rows, network, Wants(kind), id)
    && (kind.Signer? || kind.Sender? ==> forall j: nat :: j < id ==> !Found(rows, network, Wants(kind), j))
  }

  predicate NoneInProcess(rows: seq<Row>, network: Network) {
    forall i :: 0 <= i < |rows| ==> !(rows[i].network == network && rows[i].status.InProcess())
  }

  predicate Enabled(s: State, ev: Event) {
    match ev
    case Insert(_) => true
    case Check(w) => w < |s.workers| && s.workers[w].kind.Picker? && s.workers[w].local.Idle?
    case Fetch(w, id) =>
      && w < |s.workers| && s.workers[w].local == (if s.workers[w].kind.Picker? then Clear else Idle)
      && Fetched(s.rows, s.workers[w].network, s.workers[w].kind, id)
    case FindNothing(w) =>
      && w < |s.workers| && s.workers[w].local.Clear?
      && forall i :: 0 <= i < |s.rows| ==> !Found(s.rows, s.workers[w].network, Pending, i)
    case Write(w, status) =>
      && w < |s.workers| && s.workers[w].local.Holds? && s.workers[w].local.id < |s.rows|
      && status in Outcomes(s.workers[w].network, s.workers[w].kind)
    case Crash(w) => w < |s.workers|
  }

  function SetLocal(s: State, w: nat, local: Local): State
    requires w < |s.workers|
  {
    s.(workers := s.workers[w := s.workers[w].(local := local)])
  }

  /** A write saves the whole row, whatever the table holds by then. */
  function Step(s: State, ev: Event): State
    requires Enabled(s, ev)
  {
    match ev
    case Insert(network) => s.(rows := s.rows + [Row(network, Pending, 0)])
    case Check(w) => SetLocal(s, w, if NoneInProcess(s.rows, s.workers[w].network) then Clear else Idle)
    case Fetch(w, id) => SetLocal(s, w, Holds(id))
    case FindNothing(w) => SetLocal(s, w, Idle)
    case Write(w, status) =>
      var id := s.workers[w].local.id;
      SetLocal(s, w, Idle).(rows := s.rows[id := s.rows[id].(status := status, writes := s.rows[id].writes + 1)])
    case Crash(w) => SetLocal(s, w, Idle)
  }

  // ---------- Invariant ----------

  /** One process of each kind per network. */
  predicate OneOfEach(workers: seq<Worker>) {
    forall i, j :: 0 <= i < j < |workers| && workers[i].network == workers[j].network ==>
      workers[i].kind != workers[j].kind
  }

  predicate AtMostOneInProcess(rows: seq<Row>) {
    forall i, j :: 0 <= i < j < |rows| && rows[i].network == rows[j].network ==>
      !(rows[i].status.InProcess() && rows[j].status.InProcess())
  }

  /** What a worker has read is still so. */
  predicate UpToDate(rows: seq<Row>, w: Worker) {
    && (w.local.Clear? ==> w.kind.Picker?)
    && (w.kind.Picker? && !w.local.Idle? ==> NoneInProcess(rows, w.network))
    && (w.local.Holds? ==> Found(rows, w.network, Wants(w.kind), w.local.id))
  }

  predicate Inv(s: State) {
    && OneOfEach(s.workers)
    && AtMostOneInProcess(s.rows)
    && (forall w <- s.workers :: UpToDate(s.rows, w))
    && (forall r <- s.rows :: r.writes + r.status.Remaining() <= 4)
  }

  /** Rows only move forward, a written one strictly; final rows are never written again. */
  predicate Forward(before: seq<Row>, after: seq<Row>) {
    && |before| <= |after|
    && forall i :: 0 <= i < |before| ==>
      && after[i].network == before[i].network
      && (after[i] == before[i]
          || (after[i].writes == before[i].writes + 1 && after[i].status.Remaining() < before[i].status.Remaining()))
      && (before[i].status.Final() ==> after[i] == before[i])
  }

  lemma OthersUpToDate(s: State, w: nat, v: nat, row: Row)
    requires Inv(s) && w < |s.workers| && v < |s.workers| && v != w && s.workers[w].local.Holds?
    requires Found(s.rows, s.workers[w].network, Wants(s.workers[w].kind), s.workers[w].local.id)
    requires row.network == s.workers[w].network
    ensures UpToDate(s.rows[s.workers[w].local.id := row], s.workers[v])
  {
    var a, b, id := s.workers[w], s.workers[v], s.workers[w].local.id;
    assert b in s.workers;
    assert UpToDate(s.rows, b);
    if b.network == a.network {
      assert a.kind != b.kind;
      assert !a.kind.Picker? ==> s.rows[id].status.InProcess();
    }
  }

  lemma WriteKeeps(s: State, w: nat, status: Status)
    requires Inv(s) && Enabled(s, Write(w, status))
    ensures Inv(Step(s, Write(w, status))) && Forward(s.rows, Step(s, Write(w, status)).rows)
  {
    var a := s.workers[w];
    var id, s' := a.local.id, Step(s, Write(w, status));
    assert a in s.workers && s.rows[id] in s.rows;
    assert UpToDate(s.rows, a);
    forall v | v in s'.workers ensures UpToDate(s'.rows, v) {
      var k :| 0 <= k < |s'.workers| && s'.workers[k] == v;
      if k != w { OthersUpToDate(s, w, k, s'.rows[id]); }
    }
    forall r | r in s'.rows ensures r.writes + r.status.Remaining() <= 4 {
      var k :| 0 <= k < |s'.rows| && s'.rows[k] == r;
      assert k != id ==> r in s.rows;
    }
    WriteKeepsSingle(s, w, status);
  }

  lemma WriteKeepsSingle(s: State, w: nat, status: Status)
    requires Inv(s) && Enabled(s, Write(w, status))
    ensures AtMostOneInProcess(Step(s, Write(w, status)).rows)
  {
    var a := s.workers[w];
    assert a in s.workers;
    assert UpToDate(s.rows, a);
  }

  lemma StepKeeps(s: State, ev: Event)
    requires Inv(s) && Enabled(s, ev)
    ensures Inv(Step(s, ev)) && Forward(s.rows, Step(s, ev).rows)
  {
    var s' := Step(s, ev);
    match ev
    case Write(w, status) => WriteKeeps(s, w, status);
    case Insert(network) =>
      forall v | v in s'.workers ensures UpToDate(s'.rows, v) {
        assert UpToDate(s.rows, v);
      }
    case _ =>
      forall v | v in s'.workers ensures UpToDate(s'.rows, v) {
        var k :| 0 <= k < |s'.workers| && s'.workers[k] == v;
        assert s.workers[k] in s.workers;
        assert UpToDate(s.rows, s.workers[k]);
      }
  }

  /** No row is ever in two workers' hands, and one in process is in the hands of at most the worker due to write it. */
  lemma SingleWriter(s: State, v: nat, w: nat)
    requires Inv(s) && v < |s.workers| && w < |s.workers|
    requires s.workers[v].local.Holds? && s.workers[w].local.Holds? && s.workers[v].local.id == s.workers[w].local.id
    ensures v == w && s.workers[w].local.id < |s.rows|
      && s.rows[s.workers[w].local.id].status == Wants(s.workers[w].kind)
  {
    assert s.workers[v] in s.workers && s.workers[w] in s.workers;
    assert UpToDate(s.rows, s.workers[v]) && UpToDate(s.rows, s.workers[w]);
  }

  // ---------- Runs ----------

  function Start(workers: seq<Worker>): State {
    State([], seq(|workers|, i requires 0 <= i < |workers| => workers[i].(local := Idle)))
  }

  predicate Legal(s: State, run: seq<Event>)
    decreases |run|
  {
    run != [] ==> Enabled(s, run[0]) && Legal(Step(s, run[0]), run[1..])
  }

  function Run(s: State, run: seq<Event>): State
    requires Legal(s, run)
    decreases |run|
  {
    if run == [] then s else Run(Step(s, run[0]), run[1..])
  }

  lemma {:induction false} RunKeeps(s: State, run: seq<Event>)
    requires Inv(s) && Legal(s, run)
    ensures Inv(Run(s, run))
    decreases |run|
  {
    if run != [] {
      StepKeeps(s, run[0]);
      RunKeeps(Step(s, run[0]), run[1..]);
    }
  }

  lemma StartInv(workers: seq<Worker>)
    requires OneOfEach(workers)
    ensures Inv(Start(workers))
  {
    var s := Start(workers);
    forall v | v in s.workers ensures UpToDate(s.rows, v) {
      var k :| 0 <= k < |s.workers| && s.workers[k] == v;
    }
  }

  /**
   With one worker of each kind per network, at most one transaction per network is ever in process, and none is
   written more than four times.
   */
  lemma OneTransactionAtATime(workers: seq<Worker>, run: seq<Event>)
    requires OneOfEach(workers) && Legal(Start(workers), run)
    ensures var s := Run(Start(workers), run);
            AtMostOneInProcess(s.rows) && forall r <- s.rows :: r.writes <= 4
  {
    StartInv(workers);
    RunKeeps(Start(workers), run);
  }

  /** Along every run a row's status only moves forward, and a completed or failed row stays as it is. */
  lemma {:induction false} StatusesMoveForward(s: State, run: seq<Event>, id: nat)
    requires Inv(s) && Legal(s, run) && id < |s.rows|
    ensures var s' := Run(s, run);
            && id < |s'.rows| && s'.rows[id].network == s.rows[id].network
            && s'.rows[id].status.Remaining() <= s.rows[id].status.Remaining()
            && (s.rows[id].status.Final() ==> s'.rows[id] == s.rows[id])
            && (s'.rows[id].writes == s.rows[id].writes ==> s'.rows[id].status == s.rows[id].status)
            && s'.rows[id].writes >= s.rows[id].writes
    decreases |run|
  {
    if run != [] {
      StepKeeps(s, run[0]);
      StatusesMoveForward(Step(s, run[0]), run[1..], id);
    }
  }

  // ---------- The total rank ----------

  function TotalRemaining(rows: seq<Row>): nat {
    if rows == [] then 0 else TotalRemaining(rows[..|rows| - 1]) + rows[|rows| - 1].status.Remaining()
  }

  function Inserts(run: seq<Event>): nat {
    if run == [] then 0 else (if run[0].Insert? then 1 else 0) + Inserts(run[1..])
  }

  function Writes(run: seq<Event>): nat {
    if run == [] then 0 else (if run[0].Write? then 1 else 0) + Writes(run[1..])
  }

  lemma {:induction false} RemainingReplaced(rows: seq<Row>, id: nat, row: Row)
    requires id < |rows|
    ensures TotalRemaining(rows[id := row]) == TotalRemaining(rows) - rows[id].status.Remaining()
      + row.status.Remaining()
    decreases |rows|
  {
    var last := |rows| - 1;
    if id < last {
      RemainingReplaced(rows[..last], id, row);
      assert rows[id := row][..last] == rows[..last][id := row];
    } else {
      assert rows[id := row][..last] == rows[..last];
    }
  }

  /** Each write uses up some of what the rows can still see; only a new row adds to it, by four. */
  lemma {:induction false} RankDecreases(s: State, run: seq<Event>)
    requires Inv(s) && Legal(s, run)
    ensures TotalRemaining(Run(s, run).rows) + Writes(run) <= TotalRemaining(s.rows) + 4 * Inserts(run)
    decreases |run|
  {
    if run != [] {
      var s' := Step(s, run[0]);
      StepKeeps(s, run[0]);
      RankDecreases(s', run[1..]);
      match run[0]
      case Insert(network) =>
        assert s'.rows[..|s.rows|] == s.rows;
      case Write(w, status) =>
        var id := s.workers[w].local.id;
        RemainingReplaced(s.rows, id, s'.rows[id]);
      case _ =>
    }
  }

  /** A run writes at most four times as often as transactions are created. */
  lemma WritesAreBounded(workers: seq<Worker>, run: seq<Event>)
    requires OneOfEach(workers) && Legal(Start(workers), run)
    ensures Writes(run) <= 4 * Inserts(run)
  {
    StartInv(workers);
    RankDecreases(Start(workers), run);
  }

  // ---------- Which workers may share a network ----------

  /** No two pickers, signers or senders share the network; verifiers may. */
  predicate Unshared(workers: seq<Worker>, n: Network) {
    forall i, j :: 0 <= i < j < |workers| && workers[i].network == workers[j].network == n ==>
      workers[i].kind != workers[j].kind || workers[i].kind.Verifier?
  }

  predicate SingleIn(rows: seq<Row>, n: Network) {
    forall i, j :: 0 <= i < j < |rows| && rows[i].network == rows[j].network == n ==>
      !(rows[i].status.InProcess() && rows[j].status.InProcess())
  }

  /** A worker holds rows of its own network only. */
  predicate Owns(rows: seq<Row>, w: Worker) {
    w.local.Holds? ==> w.local.id < |rows| && rows[w.local.id].network == w.network
  }

  /** A verifier may hold a row that another one has finished. */
  predicate Reads(rows: seq<Row>, w: Worker)
    requires Owns(rows, w)
  {
    if w.kind.Verifier? then
      !w.local.Clear? && (w.local.Holds? ==> rows[w.local.id].status.Sent? || rows[w.local.id].status.Final())
    else UpToDate(rows, w)
  }

  ghost predicate NetworkInv(s: State, n: Network) {
    && Unshared(s.workers, n)
    && SingleIn(s.rows, n)
    && (forall w <- s.workers :: Owns(s.rows, w))
    && (forall w <- s.workers :: w.network == n ==> Reads(s.rows, w))
  }

  lemma OthersRead(s: State, n: Network, w: nat, v: nat, row: Row)
    requires NetworkInv(s, n) && w < |s.workers| && v < |s.workers| && v != w && s.workers[w].local.Holds?
    requires s.workers[w].network == s.workers[v].network == n == row.network
    requires s.workers[w].kind.Verifier? ==> row.status.Final()
    ensures s.workers[w].local.id < |s.rows|
    ensures var rows := s.rows[s.workers[w].local.id := row];
            Owns(rows, s.workers[v]) && Reads(rows, s.workers[v])
  {
    var a, b := s.workers[w], s.workers[v];
    assert a in s.workers && b in s.workers;
    assert Owns(s.rows, a) && Owns(s.rows, b) && Reads(s.rows, a) && Reads(s.rows, b);
    if v < w { assert a.kind != b.kind || b.kind.Verifier?; } else { assert a.kind != b.kind || a.kind.Verifier?; }
    assert !a.kind.Picker? && !a.kind.Verifier? ==> s.rows[a.local.id].status.InProcess();
  }

  lemma WriteKeepsNetwork(s: State, n: Network, w: nat, status: Status)
    requires NetworkInv(s, n) && Enabled(s, Write(w, status))
    ensures NetworkInv(Step(s, Write(w, status)), n)
  {
    var a, s' := s.workers[w], Step(s, Write(w, status));
    var id := a.local.id;
    assert a in s.workers && Owns(s.rows, a);
    forall v | v in s'.workers ensures Owns(s'.rows, v) && (v.network == n ==> Reads(s'.rows, v)) {
      var k :| 0 <= k < |s'.workers| && s'.workers[k] == v;
      assert s.workers[k] in s.workers && Owns(s.rows, s.workers[k]);
      if k != w && v.network == n {
        assert Reads(s.rows, v);
        if a.network == n { OthersRead(s, n, w, k, s'.rows[id]); }
      }
    }
    if a.network == n { assert Reads(s.rows, a); }
  }

  lemma StepKeepsNetwork(s: State, n: Network, ev: Event)
    requires NetworkInv(s, n) && Enabled(s, ev)
    ensures NetworkInv(Step(s, ev), n)
  {
    var s' := Step(s, ev);
    match ev
    case Write(w, status) => WriteKeepsNetwork(s, n, w, status);
    case Insert(network) =>
      forall v | v in s'.workers ensures Owns(s'.rows, v) && (v.network == n ==> Reads(s'.rows, v)) {
        assert Owns(s.rows, v) && (v.network == n ==> Reads(s.rows, v));
      }
    case _ =>
      forall v | v in s'.workers ensures Owns(s'.rows, v) && (v.network == n ==> Reads(s'.rows, v)) {
        var k :| 0 <= k < |s'.workers| && s'.workers[k] == v;
        assert s.workers[k] in s.workers && Owns(s.rows, s.workers[k]);
        assert v.network == n ==> Reads(s.rows, s.workers[k]);
      }
  }

  lemma {:induction false} RunKeepsNetwork(s: State, n: Network, run: seq<Event>)
    requires NetworkInv(s, n) && Legal(s, run)
    ensures NetworkInv(Run(s, run), n)
    decreases |run|
  {
    if run != [] {
      StepKeepsNetwork(s, n, run[0]);
      RunKeepsNetwork(Step(s, run[0]), n, run[1..]);
    }
  }

  // ---------- Runs that collide ----------

  ghost predicate Performs(s: State, run: seq<Event>, s': State) { Legal(s, run) && Run(s, run) == s' }

  lemma {:induction false} Then(a: State, run: seq<Event>, b: State, more: seq<Event>, c: State)
    requires Performs(a, run, b) && Performs(b, more, c)
    ensures Performs(a, run + more, c)
    decreases |run|
  {
    if run == [] {
      assert run + more == more;
    } else {
      assert (run + more)[1..] == run[1..] + more;
      Then(Step(a, run[0]), run[1..], b, more, c);
    }
  }

  lemma One(s: State, ev: Event)
    requires Enabled(s, ev)
    ensures Performs(s, [ev], Step(s, ev))
  {
    assert [ev][1..] == [];
  }

  function Saved(s: State, id: nat, status: Status): State
    requires id < |s.rows|
  {
    s.(rows := s.rows[id := s.rows[id].(status := status, writes := s.rows[id].writes + 1)])
  }

  predicate Is(s: State, w: nat, n: Network, kind: Kind) { w < |s.workers| && s.workers[w] == Worker(n, kind, Idle) }

  /** A free picker decides on a pending row. */
  lemma Pick(s: State, n: Network, p: nat, id: nat, status: Status)
    requires Is(s, p, n, Picker) && NoneInProcess(s.rows, n) && Found(s.rows, n, Pending, id)
    requires status in Outcomes(n, Picker)
    ensures Performs(s, [Check(p), Fetch(p, id), Write(p, status)], Saved(s, id, status))
  {
    var clear, holds := SetLocal(s, p, Clear), SetLocal(s, p, Holds(id));
    hide Performs, NoneInProcess;
    One(s, Check(p));
    assert Step(clear, Fetch(p, id)) == holds;
    One(clear, Fetch(p, id));
    assert Step(holds, Write(p, status)) == Saved(s, id, status);
    One(holds, Write(p, status));
    Then(s, [Check(p)], clear, [Fetch(p, id)], holds);
    Then(s, [Check(p)] + [Fetch(p, id)], holds, [Write(p, status)], Saved(s, id, status));
    assert [Check(p)] + [Fetch(p, id)] + [Write(p, status)] == [Check(p), Fetch(p, id), Write(p, status)];
  }

  /** A free signer or sender handles the first row it can find. */
  lemma Handle(s: State, n: Network, kind: Kind, w: nat, id: nat, status: Status)
    requires !kind.Picker? && Is(s, w, n, kind) && Fetched(s.rows, n, kind, id) && status in Outcomes(n, kind)
    ensures Performs(s, [Fetch(w, id), Write(w, status)], Saved(s, id, status))
  {
    var holds := SetLocal(s, w, Holds(id));
    hide Performs;
    One(s, Fetch(w, id));
    assert Step(holds, Write(w, status)) == Saved(s, id, status);
    One(holds, Write(w, status));
    Then(s, [Fetch(w, id)], holds, [Write(w, status)], Saved(s, id, status));
    assert [Fetch(w, id)] + [Write(w, status)] == [Fetch(w, id), Write(w, status)];
  }

  /** Two transactions waiting. */
  function Waiting(workers: seq<Worker>, n: Network): State {
    Start(workers).(rows := [Row(n, Pending, 0), Row(n, Pending, 0)])
  }

  lemma TwoInserts(workers: seq<Worker>, n: Network)
    ensures Performs(Start(workers), [Insert(n), Insert(n)], Waiting(workers, n))
  {
    var s := Start(workers);
    One(s, Insert(n));
    One(Step(s, Insert(n)), Insert(n));
    hide Performs;
    assert [Insert(n)] + [Insert(n)] == [Insert(n), Insert(n)];
    Then(s, [Insert(n)], Step(s, Insert(n)), [Insert(n)], Waiting(workers, n));
  }

  /** One picker looks before the other has written and fetches after. */
  lemma PickersCollide(s: State, n: Network, a: nat, b: nat) returns (run: seq<Event>, s': State)
    requires s.rows == [Row(n, Pending, 0), Row(n, Pending, 0)] && Is(s, a, n, Picker) && Is(s, b, n, Picker) && a != b
    ensures Performs(s, run, s') && !SingleIn(s'.rows, n)
  {
    hide Performs;
    var s1 := SetLocal(s, b, Clear);
    One(s, Check(b));
    Pick(s1, n, a, 0, Unsigned);
    var s2 := Saved(s1, 0, Unsigned);
    One(s2, Fetch(b, 1));
    var s3 := Step(s2, Fetch(b, 1));
    One(s3, Write(b, Unsigned));
    s' := Step(s3, Write(b, Unsigned));
    assert s'.rows[0].status.InProcess() && s'.rows[1].status.InProcess();
    run := [Check(b)];
    Then(s, run, s1, [Check(a), Fetch(a, 0), Write(a, Unsigned)], s2);
    run := run + [Check(a), Fetch(a, 0), Write(a, Unsigned)];
    Then(s, run, s2, [Fetch(b, 1)], s3);
    run := run + [Fetch(b, 1)];
    Then(s, run, s3, [Write(b, Unsigned)], s');
    run := run + [Write(b, Unsigned)];
  }

  /**
   A row held by one of two workers of a kind goes on to fail in the other's hands; when the next is in process, the
   first one writes what it has held all along.
   */
  lemma StaleWrite(s: State, n: Network, p: nat, b: nat, status: Status) returns (run: seq<Event>, s': State)
    requires |s.rows| == 2 && s.rows[0].network == n && s.rows[0].status.Failed? && s.rows[1] == Row(n, Pending, 0)
    requires Is(s, p, n, Picker) && b < |s.workers| && b != p && s.workers[b].network == n
    requires s.workers[b].local == Holds(0) && status in Outcomes(n, s.workers[b].kind) && status.InProcess()
    ensures Performs(s, run, s') && !SingleIn(s'.rows, n)
  {
    hide Performs;
    Pick(s, n, p, 1, Unsigned);
    var s1 := Saved(s, 1, Unsigned);
    One(s1, Write(b, status));
    s' := Step(s1, Write(b, status));
    assert s'.rows[0].status.InProcess() && s'.rows[1].status.InProcess();
    run := [Check(p), Fetch(p, 1), Write(p, Unsigned)] + [Write(b, status)];
    Then(s, [Check(p), Fetch(p, 1), Write(p, Unsigned)], s1, [Write(b, status)], s');
  }

  lemma SignersCollide(s: State, n: Network, p: nat, a: nat, b: nat, d: nat) returns (run: seq<Event>, s': State)
    requires s.rows == [Row(n, Pending, 0), Row(n, Pending, 0)] && Is(s, p, n, Picker) && Is(s, d, n, Sender)
    requires Is(s, a, n, Signer) && Is(s, b, n, Signer) && a != b
    ensures Performs(s, run, s') && !SingleIn(s'.rows, n)
  {
    hide Performs;
    Pick(s, n, p, 0, Unsigned);
    var s1 := Saved(s, 0, Unsigned);
    One(s1, Fetch(b, 0));
    var s2 := Step(s1, Fetch(b, 0));
    Handle(s2, n, Signer, a, 0, Signed);
    var s3 := Saved(s2, 0, Signed);
    Handle(s3, n, Sender, d, 0, Failed);
    var s4 := Saved(s3, 0, Failed);
    var more;
    more, s' := StaleWrite(s4, n, p, b, Signed);
    run := [Check(p), Fetch(p, 0), Write(p, Unsigned)];
    Then(s, run, s1, [Fetch(b, 0)], s2);
    run := run + [Fetch(b, 0)];
    Then(s, run, s2, [Fetch(a, 0), Write(a, Signed)], s3);
    run := run + [Fetch(a, 0), Write(a, Signed)];
    Then(s, run, s3, [Fetch(d, 0), Write(d, Failed)], s4);
    run := run + [Fetch(d, 0), Write(d, Failed)];
    Then(s, run, s4, more, s');
    run := run + more;
  }

  lemma SendersCollide(s: State, n: Network, p: nat, g: nat, a: nat, b: nat) returns (run: seq<Event>, s': State)
    requires s.rows == [Row(n, Pending, 0), Row(n, Pending, 0)] && Is(s, p, n, Picker) && Is(s, g, n, Signer)
    requires Is(s, a, n, Sender) && Is(s, b, n, Sender) && a != b
    ensures Performs(s, run, s') && !SingleIn(s'.rows, n)
  {
    hide Performs;
    Pick(s, n, p, 0, Unsigned);
    var s1 := Saved(s, 0, Unsigned);
    Handle(s1, n, Signer, g, 0, Signed);
    var s2 := Saved(s1, 0, Signed);
    One(s2, Fetch(b, 0));
    var s3 := Step(s2, Fetch(b, 0));
    Handle(s3, n, Sender, a, 0, Failed);
    var s4 := Saved(s3, 0, Failed);
    var more;
    more, s' := StaleWrite(s4, n, p, b, Sent);
    run := [Check(p), Fetch(p, 0), Write(p, Unsigned)];
    Then(s, run, s1, [Fetch(g, 0), Write(g, Signed)], s2);
    run := run + [Fetch(g, 0), Write(g, Signed)];
    Then(s, run, s2, [Fetch(b, 0)], s3);
    run := run + [Fetch(b, 0)];
    Then(s, run, s3, [Fetch(a, 0), Write(a, Failed)], s4);
    run := run + [Fetch(a, 0), Write(a, Failed)];
    Then(s, run, s4, more, s');
    run := run + more;
  }

  predicate Has(workers: seq<Worker>, n: Network, kind: Kind) {
    exists w :: 0 <= w < |workers| && workers[w].network == n && workers[w].kind == kind
  }

  /** Two pickers, two signers or two senders. */
  lemma Collide(workers: seq<Worker>, n: Network) returns (run: seq<Event>)
    requires Has(workers, n, Picker) && Has(workers, n, Signer) && Has(workers, n, Sender) && !Unshared(workers, n)
    ensures Legal(Start(workers), run) && !SingleIn(Run(Start(workers), run).rows, n)
  {
    var s, s' := Waiting(workers, n), Start(workers);
    TwoInserts(workers, n);
    var i, j :| 0 <= i < j < |workers| && workers[i].network == workers[j].network == n
      && workers[i].kind == workers[j].kind && !workers[i].kind.Verifier?;
    var p :| 0 <= p < |workers| && workers[p].network == n && workers[p].kind == Picker;
    var g :| 0 <= g < |workers| && workers[g].network == n && workers[g].kind == Signer;
    var d :| 0 <= d < |workers| && workers[d].network == n && workers[d].kind == Sender;
    match workers[i].kind {
      case Picker => run, s' := PickersCollide(s, n, i, j);
      case Signer => run, s' := SignersCollide(s, n, p, i, j, d);
      case Sender => run, s' := SendersCollide(s, n, p, g, i, j);
    }
    Then(Start(workers), [Insert(n), Insert(n)], s, run, s');
    run := [Insert(n), Insert(n)] + run;
  }

  /**
   With a picker, a signer and a sender on a network, at most one of its transactions is in process along every run if
   and only if no two pickers, signers or senders share it.
   */
  lemma OneAtATimeIff(workers: seq<Worker>, n: Network)
    requires Has(workers, n, Picker) && Has(workers, n, Signer) && Has(workers, n, Sender)
    ensures (forall run | Legal(Start(workers), run) :: SingleIn(Run(Start(workers), run).rows, n))
            <==> Unshared(workers, n)
  {
    if Unshared(workers, n) {
      var s := Start(workers);
      forall v | v in s.workers ensures Owns(s.rows, v) && Reads(s.rows, v) {
        var k :| 0 <= k < |s.workers| && s.workers[k] == v;
      }
      forall run | Legal(s, run) ensures SingleIn(Run(s, run).rows, n) {
        RunKeepsNetwork(s, n, run);
      }
    } else {
      var run := Collide(workers, n);
    }
  }

  // ---------- The life of a transaction ----------

  /** The statuses of a transaction and after how many writes it has each; only Stellar ones can be rejected at once. */
  predicate Lifecycle(n: Network, status: Status, writes: nat) {
    match status
    case Pending => writes == 0
    case Unsigned => writes == 1
    case Signed => writes == 2
    case Sent => writes == 3
    case Complete => writes == 4
    case Failed => writes == 3 || writes == 4 || (n.Stellar? && writes == 1)
  }

  predicate InLifecycle(rows: seq<Row>) { forall r <- rows :: Lifecycle(r.network, r.status, r.writes) }

  lemma StepInLifecycle(s: State, ev: Event)
    requires Inv(s) && InLifecycle(s.rows) && Enabled(s, ev)
    ensures InLifecycle(Step(s, ev).rows)
  {
    if ev.Write? {
      var a := s.workers[ev.w];
      assert a in s.workers && UpToDate(s.rows, a);
      assert s.rows[a.local.id] in s.rows;
    }
  }

  lemma {:induction false} RunInLifecycle(s: State, run: seq<Event>)
    requires Inv(s) && InLifecycle(s.rows) && Legal(s, run)
    ensures InLifecycle(Run(s, run).rows)
    decreases |run|
  {
    if run != [] {
      hide InLifecycle;
      StepInLifecycle(s, run[0]);
      StepKeeps(s, run[0]);
      RunInLifecycle(Step(s, run[0]), run[1..]);
    }
  }

  /** What happens to a transaction the signer, the sender or the verifier can find. */
  lemma Onward(start: State, run: seq<Event>, s: State, n: Network, kind: Kind, w: nat, status: Status)
    returns (run': seq<Event>, s': State)
    requires Performs(start, run, s) && s.rows != [] && !kind.Picker? && Is(s, w, n, kind)
    requires Found(s.rows, n, Wants(kind), 0) && status in Outcomes(n, kind)
    ensures Performs(start, run', s') && s' == Saved(s, 0, status)
    ensures s'.rows != [] && s'.rows[0] == Row(n, status, s.rows[0].writes + 1) && s'.workers == s.workers
  {
    hide Performs;
    s' := Saved(s, 0, status);
    Handle(s, n, kind, w, 0, status);
    run' := run + [Fetch(w, 0), Write(w, status)];
    Then(start, run, s, [Fetch(w, 0), Write(w, status)], s');
  }

  lemma LifecycleFacts(n: Network, status: Status, writes: nat)
    requires Lifecycle(n, status, writes)
    ensures writes <= 4 && (writes == 0 <==> status == Pending)
    ensures writes == 1 ==> status in Outcomes(n, Picker)
    ensures writes == 2 ==> status in Outcomes(n, Signer)
    ensures writes == 3 ==> status in Outcomes(n, Sender)
    ensures writes == 4 ==> status in Outcomes(n, Verifier)
  {
  }

  lemma Lives(workers: seq<Worker>, n: Network, status: Status, writes: nat) returns (run: seq<Event>, s: State)
    requires Has(workers, n, Picker) && Has(workers, n, Signer) && Has(workers, n, Sender) && Has(workers, n, Verifier)
    requires Lifecycle(n, status, writes)
    ensures Performs(Start(workers), run, s) && Row(n, status, writes) in s.rows
  {
    var p :| 0 <= p < |workers| && workers[p].network == n && workers[p].kind == Picker;
    var g :| 0 <= g < |workers| && workers[g].network == n && workers[g].kind == Signer;
    var d :| 0 <= d < |workers| && workers[d].network == n && workers[d].kind == Sender;
    var v :| 0 <= v < |workers| && workers[v].network == n && workers[v].kind == Verifier;
    var start := Start(workers);
    One(start, Insert(n));
    run, s := [Insert(n)], Step(start, Insert(n));
    hide Performs, Has, Lifecycle;
    LifecycleFacts(n, status, writes);
    if status == Pending { return; }
    var picked := if writes == 1 then status else Unsigned;
    Pick(s, n, p, 0, picked);
    Then(start, run, s, [Check(p), Fetch(p, 0), Write(p, picked)], Saved(s, 0, picked));
    run, s := run + [Check(p), Fetch(p, 0), Write(p, picked)], Saved(s, 0, picked);
    assert s.rows[0] == Row(n, picked, 1);
    if writes == 1 { return; }
    run, s := Onward(start, run, s, n, Signer, g, Signed);
    if writes == 2 { return; }
    run, s := Onward(start, run, s, n, Sender, d, if writes == 3 then status else Sent);
    if writes == 3 { return; }
    run, s := Onward(start, run, s, n, Verifier, v, status);
  }

  /**
   With one worker of each kind on a network, its transactions can get into exactly these statuses after these numbers
   of writes, whatever the interleaving.
   */
  lemma LifecycleIff(workers: seq<Worker>, n: Network, status: Status, writes: nat)
    requires OneOfEach(workers)
    requires Has(workers, n, Picker) && Has(workers, n, Signer) && Has(workers, n, Sender) && Has(workers, n, Verifier)
    ensures (exists run: seq<Event> ::
               Legal(Start(workers), run) && Row(n, status, writes) in Run(Start(workers), run).rows)
            <==> Lifecycle(n, status, writes)
  {
    StartInv(workers);
    hide Has, Inv;
    forall run: seq<Event> | Legal(Start(workers), run) && Row(n, status, writes) in Run(Start(workers), run).rows
      ensures Lifecycle(n, status, writes)
    {
      RunInLifecycle(Start(workers), run);
    }
    if Lifecycle(n, status, writes) {
      var run, s := Lives(workers, n, status, writes);
      assert Legal(Start(workers), run) && Run(Start(workers), run) == s;
    }
  }

  // ---------- Nothing is ever stuck ----------

  /** The workers of a network, one of each kind, and all idle. */
  ghost predicate Ready(s: State, n: Network, p: nat, g: nat, d: nat, v: nat) {
    Inv(s) && Is(s, p, n, Picker) && Is(s, g, n, Signer) && Is(s, d, n, Sender) && Is(s, v, n, Verifier)
  }

  lemma StaysReady(s: State, run: seq<Event>, s': State, n: Network, p: nat, g: nat, d: nat, v: nat)
    requires Ready(s, n, p, g, d, v) && Performs(s, run, s') && s'.workers == s.workers
    ensures Ready(s', n, p, g, d, v)
  {
    RunKeeps(s, run);
  }

  /** A crash costs a worker what it has read, and nothing else. */
  lemma Restart(s: State, w: nat)
    requires w < |s.workers|
    ensures Performs(s, [Crash(w)], Step(s, Crash(w)))
    ensures Step(s, Crash(w)) == s.(workers := s.workers[w := s.workers[w].(local := Idle)])
  {
    One(s, Crash(w));
  }

  lemma RestartAll(s: State, n: Network, p: nat, g: nat, d: nat, v: nat) returns (run: seq<Event>, s': State)
    requires Inv(s) && p < |s.workers| && g < |s.workers| && d < |s.workers| && v < |s.workers|
    requires s.workers[p].network == s.workers[g].network == s.workers[d].network == s.workers[v].network == n
    requires s.workers[p].kind == Picker && s.workers[g].kind == Signer
    requires s.workers[d].kind == Sender && s.workers[v].kind == Verifier
    ensures Performs(s, run, s') && s'.rows == s.rows && Ready(s', n, p, g, d, v)
  {
    var a := Step(s, Crash(p));
    var b := Step(a, Crash(g));
    var c := Step(b, Crash(d));
    s' := Step(c, Crash(v));
    Restart(s, p);
    Restart(a, g);
    Restart(b, d);
    Restart(c, v);
    assert Is(s', p, n, Picker) && Is(s', g, n, Signer) && Is(s', d, n, Sender) && Is(s', v, n, Verifier);
    run := [Crash(p)] + [Crash(g)] + [Crash(d)] + [Crash(v)];
    hide Performs, Inv, Is;
    Then(s, [Crash(p)], a, [Crash(g)], b);
    Then(s, [Crash(p)] + [Crash(g)], b, [Crash(d)], c);
    Then(s, [Crash(p)] + [Crash(g)] + [Crash(d)], c, [Crash(v)], s');
    assert Inv(s') by { KeptBy(s, run, s'); }
  }

  lemma KeptBy(s: State, run: seq<Event>, s': State)
    requires Inv(s) && Performs(s, run, s')
    ensures Inv(s')
  {
    RunKeeps(s, run);
  }

  /** The worker due handles the one row in process. */
  lemma HandleDue(s: State, n: Network, p: nat, g: nat, d: nat, v: nat, kind: Kind, w: nat, id: nat, status: Status)
    returns (run: seq<Event>)
    requires Ready(s, n, p, g, d, v) && !kind.Picker? && Is(s, w, n, kind) && Found(s.rows, n, Wants(kind), id)
    requires status in Outcomes(n, kind)
    ensures Performs(s, run, Saved(s, id, status)) && Ready(Saved(s, id, status), n, p, g, d, v)
  {
    assert Fetched(s.rows, n, kind, id);
    hide Performs, Inv;
    Handle(s, n, kind, w, id, status);
    run := [Fetch(w, id), Write(w, status)];
    StaysReady(s, run, Saved(s, id, status), n, p, g, d, v);
  }

  /** The transaction in process is completed. */
  lemma {:induction false} Completes(s: State, n: Network, p: nat, g: nat, d: nat, v: nat, id: nat)
    returns (run: seq<Event>, s': State)
    requires Ready(s, n, p, g, d, v) && id < |s.rows| && s.rows[id].network == n && s.rows[id].status.InProcess()
    ensures Performs(s, run, s') && Ready(s', n, p, g, d, v)
    ensures |s'.rows| == |s.rows| && s'.rows[id].status == Complete
    ensures forall i :: 0 <= i < |s.rows| && i != id ==> s'.rows[i] == s.rows[i]
    decreases s.rows[id].status.Remaining()
  {
    hide Performs, Inv;
    var next := match s.rows[id].status { case Unsigned => Signed case Signed => Sent case _ => Complete };
    match s.rows[id].status {
      case Unsigned => run := HandleDue(s, n, p, g, d, v, Signer, g, id, Signed);
      case Signed => run := HandleDue(s, n, p, g, d, v, Sender, d, id, Sent);
      case _ => run := HandleDue(s, n, p, g, d, v, Verifier, v, id, Complete);
    }
    s' := Saved(s, id, next);
    if next != Complete {
      var more, last := Completes(s', n, p, g, d, v, id);
      Then(s, run, s', more, last);
      run, s' := run + more, last;
    }
  }

  /**
   Whatever has happened, crashes included, every transaction can still be brought to an end: no interleaving leaves one
   stuck.
   */
  lemma EveryTransactionCanEnd(workers: seq<Worker>, before: seq<Event>, n: Network, id: nat)
    returns (run: seq<Event>)
    requires OneOfEach(workers) && Legal(Start(workers), before)
    requires Has(workers, n, Picker) && Has(workers, n, Signer) && Has(workers, n, Sender) && Has(workers, n, Verifier)
    requires var s := Run(Start(workers), before); id < |s.rows| && s.rows[id].network == n
    ensures var s := Run(Start(workers), before);
            Legal(s, run) && id < |Run(s, run).rows| && Run(s, run).rows[id].status.Final()
  {
    StartInv(workers);
    RunKeeps(Start(workers), before);
    SameWorkers(Start(workers), before);
    var p :| 0 <= p < |workers| && workers[p].network == n && workers[p].kind == Picker;
    var g :| 0 <= g < |workers| && workers[g].network == n && workers[g].kind == Signer;
    var d :| 0 <= d < |workers| && workers[d].network == n && workers[d].kind == Sender;
    var v :| 0 <= v < |workers| && workers[v].network == n && workers[v].kind == Verifier;
    var s, last := Run(Start(workers), before), Start(workers);
    run, last := RestartAll(s, n, p, g, d, v);
    var more, end := Ends(last, n, p, g, d, v, id);
    Then(s, run, last, more, end);
    run := run + more;
  }

  /** A run never changes what a worker is. */
  lemma {:induction false} SameWorkers(s: State, run: seq<Event>)
    requires Legal(s, run)
    ensures var s' := Run(s, run);
            && |s'.workers| == |s.workers|
            && forall w :: 0 <= w < |s.workers| ==>
                 s'.workers[w].network == s.workers[w].network && s'.workers[w].kind == s.workers[w].kind
    decreases |run|
  {
    if run != [] { SameWorkers(Step(s, run[0]), run[1..]); }
  }

  /** First whatever is in process is completed, then the transaction is picked, if it still waits, and completed. */
  lemma Ends(s: State, n: Network, p: nat, g: nat, d: nat, v: nat, id: nat) returns (run: seq<Event>, s': State)
    requires Ready(s, n, p, g, d, v) && id < |s.rows| && s.rows[id].network == n
    ensures Performs(s, run, s') && id < |s'.rows| && s'.rows[id].status.Final()
  {
    assert Performs(s, [], s);
    hide Performs, Inv;
    run, s' := [], s;
    if k :| 0 <= k < |s.rows| && s.rows[k].network == n && s.rows[k].status.InProcess() {
      NothingElse(s, n, p, g, d, v, k);
      run, s' := Completes(s, n, p, g, d, v, k);
    }
    if s'.rows[id].status == Pending {
      assert NoneInProcess(s'.rows, n);
      var picked := Saved(s', id, Unsigned);
      Pick(s', n, p, id, Unsigned);
      StaysReady(s', [Check(p), Fetch(p, id), Write(p, Unsigned)], picked, n, p, g, d, v);
      Then(s, run, s', [Check(p), Fetch(p, id), Write(p, Unsigned)], picked);
      var more, last := Completes(picked, n, p, g, d, v, id);
      Then(s, run + [Check(p), Fetch(p, id), Write(p, Unsigned)], picked, more, last);
      run, s' := run + [Check(p), Fetch(p, id), Write(p, Unsigned)] + more, last;
    }
  }

  lemma NothingElse(s: State, n: Network, p: nat, g: nat, d: nat, v: nat, k: nat)
    requires Ready(s, n, p, g, d, v) && k < |s.rows| && s.rows[k].network == n && s.rows[k].status.InProcess()
    ensures forall i :: 0 <= i < |s.rows| && i != k && s.rows[i].network == n ==> !s.rows[i].status.InProcess()
  {
  }
}
