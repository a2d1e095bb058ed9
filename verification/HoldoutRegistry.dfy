/** The registry that reserves a test set for one fixed policy: any number of evaluation processes, one file per
    set of expected test hashes. Creating the file exclusively and writing its content are two steps, and a
    process may stop anywhere. */
module HoldoutRegistry {
  import opened Seqs

  /** The expected hashes of the three test files; the registry's file name is an injective digest of them. */
  datatype Hashes = Hashes(inputs: string, targets: string, metadata: string)

  /** A candidate lock: whether it was locked before any test file was read, for which test set, and the policy. */
  datatype Gate = Gate(locked: bool, expected: Hashes, policy: string, model: string)

  datatype Receipt = Receipt(expected: Hashes, policy: string, model: string)

  datatype File = Unwritten | Written(receipt: Receipt)

  datatype Position =
    | Launched
    | Checked
    | Created
    | Exists
    | Reserved(previouslyUsed: bool)
    | Admitted(previouslyUsed: bool)
    | Stopped

  datatype Process = Process(gate: Gate, at: Position)

  /** What a process was told by its reservation. */
  datatype Answer = Answer(id: nat, gate: Gate, previouslyUsed: bool)

  /** `told` and `admitted` are the history: every answer ever given and every process ever admitted, whatever
      became of the processes since. */
  datatype Registry = Registry(
    files: map<Hashes, File>,
    processes: map<nat, Process>,
    told: set<Answer>,
    admitted: set<Answer>)

  /** A process appears, takes its next step, or stops for any reason of its own. */
  datatype Step = Launch(id: nat, gate: Gate) | Advance(id: nat) | Crash(id: nat)

  function Start(): Registry { Registry(map[], map[], {}, {}) }

  predicate Enabled(r: Registry, step: Step)
  {
    match step
    case Launch(id, _) => id !in r.processes
    case Advance(id) => id in r.processes && !r.processes[id].at.Stopped? && !r.processes[id].at.Admitted?
    case Crash(id) => id in r.processes
  }

  function ReceiptOf(gate: Gate): Receipt { Receipt(gate.expected, gate.policy, gate.model) }

  /** Reading back: an unwritten file cannot be parsed, and a receipt must name the same set, policy and model. */
  predicate Matches(files: map<Hashes, File>, gate: Gate)
  {
    gate.expected in files && files[gate.expected] == Written(ReceiptOf(gate))
  }

  function NextPosition(files: map<Hashes, File>, p: Process): Position
  {
    match p.at
    case Launched => if p.gate.locked then Checked else Stopped
    case Checked => if p.gate.expected in files then Exists else Created
    case Created => Reserved(false)
    case Exists => if Matches(files, p.gate) then Reserved(true) else Stopped
    case Reserved(used) => if Matches(files, p.gate) && p.gate.locked then Admitted(used) else Stopped
    case Admitted(_) => p.at
    case Stopped => p.at
  }

  function NextFiles(files: map<Hashes, File>, p: Process): map<Hashes, File>
  {
    match p.at
    case Checked => if p.gate.expected in files then files else files[p.gate.expected := Unwritten]
    case Created => files[p.gate.expected := Written(ReceiptOf(p.gate))]
    case _ => files
  }

  function Reservation(id: nat, p: Process): set<Answer>
  {
    if p.at.Reserved? then {Answer(id, p.gate, p.at.previouslyUsed)} else {}
  }

  function Admission(id: nat, p: Process): set<Answer>
  {
    if p.at.Admitted? then {Answer(id, p.gate, p.at.previouslyUsed)} else {}
  }

  function Apply(r: Registry, step: Step): Registry
    requires Enabled(r, step)
  {
    match step
    case Launch(id, gate) => r.(processes := r.processes[id := Process(gate, Launched)])
    case Advance(id) =>
      var p := r.processes[id];
      var p' := Process(p.gate, NextPosition(r.files, p));
      Registry(NextFiles(r.files, p), r.processes[id := p'], r.told + Reservation(id, p'), r.admitted + Admission(id, p'))
    case Crash(id) => r.(processes := r.processes[id := Process(r.processes[id].gate, Stopped)])
  }

  ghost predicate IsRun(steps: seq<Step>)
    decreases |steps|, 0
  {
    steps != [] ==> IsRun(Init(steps)) && Enabled(Execute(Init(steps)), Last(steps))
  }

  ghost function Execute(steps: seq<Step>): Registry
    requires IsRun(steps)
    decreases |steps|, 1
  {
    if steps == [] then Start() else Apply(Execute(Init(steps)), Last(steps))
  }

  ghost predicate ProcessOk(files: map<Hashes, File>, p: Process)
  {
    && (p.at.Created? ==> p.gate.expected in files && files[p.gate.expected].Unwritten?)
    && (p.at.Checked? || p.at.Created? || p.at.Exists? ==> p.gate.locked)
  }

  predicate BothCreate(p: Process, q: Process)
  {
    p.at.Created? && q.at.Created? && p.gate.expected == q.gate.expected
  }

  ghost predicate ProcessesOk(r: Registry)
  {
    && (forall i :: i in r.processes ==> ProcessOk(r.files, r.processes[i]))
    && (forall i, j :: i in r.processes && j in r.processes && BothCreate(r.processes[i], r.processes[j]) ==> i == j)
  }

  /** Answers hold for good, admission follows a reservation, and both are on record. */
  ghost predicate AnswersOk(r: Registry)
  {
    && (forall a :: a in r.told ==> a.gate.locked && Matches(r.files, a.gate))
    && r.admitted <= r.told
    && (forall i :: i in r.processes ==> Reservation(i, r.processes[i]) <= r.told)
    && (forall i :: i in r.processes ==> Admission(i, r.processes[i]) <= r.admitted)
  }

  predicate BothFirst(a: Answer, b: Answer)
  {
    !a.previouslyUsed && !b.previouslyUsed && a.gate.expected == b.gate.expected
  }

  /** The process that wrote a file was told that its test set was unused. */
  ghost predicate HasFirst(told: set<Answer>, key: Hashes)
  {
    exists a :: a in told && a.gate.expected == key && !a.previouslyUsed
  }

  ghost predicate FirstOnce(r: Registry)
  {
    && (forall a, b :: a in r.told && b in r.told && BothFirst(a, b) ==> a == b)
    && (forall key :: key in r.files && r.files[key].Written? ==> HasFirst(r.told, key))
  }

  ghost predicate Inv(r: Registry)
  {
    ProcessesOk(r) && AnswersOk(r) && FirstOnce(r)
  }

  /** A step of a process changes a file only from unwritten to written, so no earlier answer is taken back. */
  lemma AnswersAreKept(r: Registry, id: nat)
    requires Inv(r) && Enabled(r, Advance(id))
    ensures forall a :: a in r.told ==> Matches(NextFiles(r.files, r.processes[id]), a.gate)
  {}

  lemma AdvanceKeepsProcesses(r: Registry, id: nat)
    requires Inv(r) && Enabled(r, Advance(id))
    ensures ProcessesOk(Apply(r, Advance(id)))
  {
    var r' := Apply(r, Advance(id));
    forall i | i in r'.processes ensures ProcessOk(r'.files, r'.processes[i]) {
      if i != id { assert !BothCreate(r.processes[i], r.processes[id]); }
    }
    forall i, j | i in r'.processes && j in r'.processes && BothCreate(r'.processes[i], r'.processes[j]) ensures i == j {
      assert i != id && j != id ==> BothCreate(r.processes[i], r.processes[j]);
    }
  }

  lemma AdvanceKeepsAnswers(r: Registry, id: nat)
    requires Inv(r) && Enabled(r, Advance(id))
    ensures AnswersOk(Apply(r, Advance(id)))
  {
    AnswersAreKept(r, id);
    var p, r' := r.processes[id], Apply(r, Advance(id));
    assert Reservation(id, p) <= r.told;
    assert p.at.Reserved? ==> Answer(id, p.gate, p.at.previouslyUsed) in r.told;
    forall i | i in r'.processes ensures Reservation(i, r'.processes[i]) <= r'.told && Admission(i, r'.processes[i]) <= r'.admitted {
      if i != id { assert Reservation(i, r.processes[i]) <= r.told && Admission(i, r.processes[i]) <= r.admitted; }
    }
  }

  lemma AdvanceKeepsFirst(r: Registry, id: nat)
    requires Inv(r) && Enabled(r, Advance(id))
    ensures FirstOnce(Apply(r, Advance(id)))
  {
    var p, r' := r.processes[id], Apply(r, Advance(id));
    forall key | key in r'.files && r'.files[key].Written? ensures HasFirst(r'.told, key) {
      if p.at.Created? && key == p.gate.expected {
        assert Answer(id, p.gate, false) in r'.told;
      } else {
        var a :| a in r.told && a.gate.expected == key && !a.previouslyUsed;
        assert a in r'.told;
      }
    }
    assert p.at.Created? ==> forall a :: a in r.told && a.gate.expected == p.gate.expected ==> !Matches(r.files, a.gate);
    forall a, b | a in r'.told && b in r'.told && BothFirst(a, b) ensures a == b {}
  }

  lemma StepKeepsInv(r: Registry, step: Step)
    requires Inv(r) && Enabled(r, step)
    ensures Inv(Apply(r, step))
    ensures r.told <= Apply(r, step).told && r.admitted <= Apply(r, step).admitted
  {
    match step
    case Launch(_, _) => ProcessChangeKeepsInv(r, step);
    case Crash(_) => ProcessChangeKeepsInv(r, step);
    case Advance(id) =>
      AdvanceKeepsProcesses(r, id);
      AdvanceKeepsAnswers(r, id);
      AdvanceKeepsFirst(r, id);
      hide ProcessesOk, AnswersOk, FirstOnce;
  }

  lemma ProcessChangeKeepsInv(r: Registry, step: Step)
    requires Inv(r) && Enabled(r, step) && !step.Advance?
    ensures Inv(Apply(r, step)) && Apply(r, step).told == r.told && Apply(r, step).admitted == r.admitted
  {
    hide Matches, HasFirst, BothFirst, NextFiles, NextPosition;
    var r' := Apply(r, step);
    forall i, j | i in r'.processes && j in r'.processes && BothCreate(r'.processes[i], r'.processes[j]) ensures i == j {
      assert i != step.id && j != step.id;
    }
  }

  lemma {:induction false} RunsKeepInv(steps: seq<Step>)
    requires IsRun(steps)
    ensures Inv(Execute(steps))
    decreases |steps|
  {
    if steps != [] {
      RunsKeepInv(Init(steps));
      hide Inv, Apply, Enabled;
      StepKeepsInv(Execute(Init(steps)), Last(steps));
    }
  }

  /** All processes ever admitted to one test set, whether they still run or have stopped since, carry one
      policy and one model, locked before the test set was read. */
  lemma OneHoldoutOnePolicy(steps: seq<Step>, a: Answer, b: Answer)
    requires IsRun(steps) && a in Execute(steps).admitted && b in Execute(steps).admitted
    requires a.gate.expected == b.gate.expected
    ensures a.gate.policy == b.gate.policy && a.gate.model == b.gate.model && a.gate.locked && b.gate.locked
  {
    RunsKeepInv(steps);
    hide Execute, IsRun;
  }

  lemma {:induction false} HistoryOnlyGrows(before: seq<Step>, after: seq<Step>)
    requires IsRun(before + after)
    ensures IsRun(before) && Execute(before).admitted <= Execute(before + after).admitted
    ensures Execute(before).told <= Execute(before + after).told
    decreases |after|
  {
    if after == [] {
      assert before + after == before;
    } else {
      assert Init(before + after) == before + Init(after) && Last(before + after) == Last(after);
      HistoryOnlyGrows(before, Init(after));
      RunsKeepInv(before + Init(after));
      hide Inv, Apply, Enabled;
      StepKeepsInv(Execute(before + Init(after)), Last(after));
    }
  }

  /** A policy changed after a test set was read is never admitted to that test set again. */
  lemma LaterAdmissionsKeepThePolicy(before: seq<Step>, after: seq<Step>, i: nat, j: nat)
    requires IsRun(before) && i in Execute(before).processes && Execute(before).processes[i].at.Admitted?
    requires IsRun(before + after) && j in Execute(before + after).processes
    requires Execute(before + after).processes[j].at.Admitted?
    requires Execute(before).processes[i].gate.expected == Execute(before + after).processes[j].gate.expected
    ensures
      var first, later := Execute(before).processes[i].gate, Execute(before + after).processes[j].gate;
      first.policy == later.policy && first.model == later.model
  {
    RunsKeepInv(before);
    RunsKeepInv(before + after);
    HistoryOnlyGrows(before, after);
    hide Execute, IsRun;
    var r, s := Execute(before), Execute(before + after);
    assert Admission(i, r.processes[i]) <= r.admitted && Admission(j, s.processes[j]) <= s.admitted;
    var a := Answer(i, r.processes[i].gate, r.processes[i].at.previouslyUsed);
    var b := Answer(j, s.processes[j].gate, s.processes[j].at.previouslyUsed);
    assert a in s.admitted && b in s.admitted;
    OneHoldoutOnePolicy(before + after, a, b);
  }

  /** Of all the answers ever given about one test set exactly one says that it was unused, and every other
      names the policy and the model of that one. */
  lemma FirstUseIsReportedOnce(steps: seq<Step>, a: Answer) returns (first: Answer)
    requires IsRun(steps) && a in Execute(steps).told
    ensures first in Execute(steps).told && !first.previouslyUsed && first.gate.expected == a.gate.expected
    ensures first.gate.policy == a.gate.policy && first.gate.model == a.gate.model
    ensures forall b :: b in Execute(steps).told && b.gate.expected == a.gate.expected && !b.previouslyUsed ==> b == first
  {
    RunsKeepInv(steps);
    hide Execute, IsRun;
    var r := Execute(steps);
    assert Matches(r.files, a.gate);
    first :| first in r.told && first.gate.expected == a.gate.expected && !first.previouslyUsed;
    assert Matches(r.files, first.gate);
    assert forall b :: b in r.told && b.gate.expected == a.gate.expected && !b.previouslyUsed ==> BothFirst(b, first);
  }

  /** The file exists, is unwritten, and no process is about to write it. */
  ghost predicate Orphaned(r: Registry, key: Hashes)
  {
    && key in r.files && r.files[key].Unwritten?
    && forall i :: i in r.processes && r.processes[i].gate.expected == key ==> !r.processes[i].at.Created?
  }

  lemma {:induction false} OrphanStaysOrphaned(before: seq<Step>, after: seq<Step>, key: Hashes)
    requires IsRun(before + after) && IsRun(before) && Orphaned(Execute(before), key)
    ensures Orphaned(Execute(before + after), key)
    decreases |after|
  {
    if after == [] {
      assert before + after == before;
    } else {
      assert Init(before + after) == before + Init(after) && Last(before + after) == Last(after);
      OrphanStaysOrphaned(before, Init(after), key);
      RunsKeepInv(before + Init(after));
      StepKeepsOrphan(Execute(before + Init(after)), Last(after), key);
    }
  }

  lemma StepKeepsOrphan(r: Registry, step: Step, key: Hashes)
    requires Inv(r) && Enabled(r, step) && Orphaned(r, key)
    ensures Orphaned(Apply(r, step), key)
  {}

  /** A creator that stops before writing closes its test set for good: whatever runs afterwards, nobody is
      ever told that the set is reserved, and nobody is ever admitted to it. */
  lemma StoppedCreatorClosesTheHoldout(before: seq<Step>, creator: nat, after: seq<Step>, a: Answer)
    requires IsRun(before) && creator in Execute(before).processes && Execute(before).processes[creator].at.Created?
    requires IsRun(before + [Crash(creator)] + after)
    requires a.gate.expected == Execute(before).processes[creator].gate.expected
    ensures a !in Execute(before + [Crash(creator)] + after).told
    ensures a !in Execute(before + [Crash(creator)] + after).admitted
  {
    var stopped := before + [Crash(creator)];
    var key := Execute(before).processes[creator].gate.expected;
    assert Init(stopped) == before && Last(stopped) == Crash(creator);
    HistoryOnlyGrows(stopped, after);
    RunsKeepInv(before);
    CrashOrphans(Execute(before), creator);
    OrphanStaysOrphaned(stopped, after, key);
    RunsKeepInv(stopped + after);
    hide Execute, IsRun;
    assert !Matches(Execute(stopped + after).files, a.gate);
  }

  lemma CrashOrphans(r: Registry, creator: nat)
    requires Inv(r) && creator in r.processes && r.processes[creator].at.Created?
    ensures Orphaned(Apply(r, Crash(creator)), r.processes[creator].gate.expected)
  {
    var p := r.processes[creator];
    forall i | i in r.processes && i != creator && r.processes[i].gate.expected == p.gate.expected
      ensures !r.processes[i].at.Created?
    {
      assert !BothCreate(r.processes[i], p);
    }
  }

  lemma Extend(steps: seq<Step>, step: Step) returns (longer: seq<Step>)
    requires IsRun(steps) && Enabled(Execute(steps), step)
    ensures longer == steps + [step] && IsRun(longer) && Execute(longer) == Apply(Execute(steps), step)
  {
    hide Apply, Enabled;
    longer := steps + [step];
    assert Init(longer) == steps;
  }

  /** A process can still take its steps up to admission. */
  lemma AdvanceOne(steps: seq<Step>, id: nat, p: Process, files: map<Hashes, File>) returns (longer: seq<Step>)
    requires IsRun(steps) && id in Execute(steps).processes && Execute(steps).processes[id] == p
    requires Execute(steps).files == files && !p.at.Stopped? && !p.at.Admitted?
    ensures longer == steps + [Advance(id)] && IsRun(longer) && id in Execute(longer).processes
    ensures Execute(longer).processes[id] == Process(p.gate, NextPosition(files, p))
    ensures Execute(longer).files == NextFiles(files, p)
    ensures Admission(id, Execute(longer).processes[id]) <= Execute(longer).admitted
  {
    hide NextPosition, NextFiles, IsRun, Execute;
    longer := Extend(steps, Advance(id));
  }

  /** A process that has found or made the record of its gate is admitted by its next step. */
  lemma ReservedIsAdmitted(steps: seq<Step>, id: nat, gate: Gate, used: bool) returns (after: seq<Step>)
    requires IsRun(steps) && id in Execute(steps).processes && gate.locked && Matches(Execute(steps).files, gate)
    requires Execute(steps).processes[id] == Process(gate, Reserved(used))
    ensures IsRun(steps + after) && Answer(id, gate, used) in Execute(steps + after).admitted
  {
    after := [Advance(id)];
    var longer := AdvanceOne(steps, id, Process(gate, Reserved(used)), Execute(steps).files);
  }

  lemma CreatorIsAdmitted(steps: seq<Step>, id: nat, gate: Gate) returns (after: seq<Step>)
    requires IsRun(steps) && id in Execute(steps).processes && gate.locked
    requires Execute(steps).processes[id] == Process(gate, Created)
    ensures IsRun(steps + after) && Answer(id, gate, false) in Execute(steps + after).admitted
  {
    var longer := AdvanceOne(steps, id, Process(gate, Created), Execute(steps).files);
    hide Execute, IsRun;
    var rest := ReservedIsAdmitted(longer, id, gate, false);
    after := [Advance(id)] + rest;
    assert steps + after == longer + rest;
  }

  lemma FreshId(processes: map<nat, Process>) returns (id: nat)
    ensures id !in processes
  {
    id := 0;
    var ids := processes.Keys;
    while id in processes
      invariant ids <= processes.Keys && forall i :: i in processes && i !in ids ==> i < id
      decreases |ids|
    {
      ids := ids - {id};
      id := id + 1;
    }
  }

  /** A gate can be admitted in some continuation: its test set is new, or recorded for its policy and model, or
      about to be recorded for them. */
  ghost predicate StillOpen(r: Registry, gate: Gate)
  {
    gate.locked && (
      gate.expected !in r.files || Matches(r.files, gate) ||
      (r.files[gate.expected].Unwritten? && exists i :: WillRecord(r, i, gate)))
  }

  ghost predicate WillRecord(r: Registry, i: nat, gate: Gate)
  {
    i in r.processes && r.processes[i].at.Created? && ReceiptOf(r.processes[i].gate) == ReceiptOf(gate)
  }

  ghost predicate AdmitsLater(before: seq<Step>, after: seq<Step>, gate: Gate)
  {
    IsRun(before + after) && exists a :: a in Execute(before + after).admitted && SamePolicy(a, gate)
  }

  /** An answer that a process with this gate, or with one of the same set, policy and model, was given. */
  predicate SamePolicy(a: Answer, gate: Gate) { ReceiptOf(a.gate) == ReceiptOf(gate) }

  lemma StepKeepsClosed(r: Registry, step: Step, gate: Gate)
    requires Inv(r) && Enabled(r, step) && gate.locked && !StillOpen(r, gate)
    ensures !StillOpen(Apply(r, step), gate)
  {
    var r' := Apply(r, step);
    if step.Advance? {
      assert ProcessOk(r.files, r.processes[step.id]);
      assert r.files[gate.expected].Unwritten? ==> !WillRecord(r, step.id, gate);
    }
    forall i | r.files[gate.expected].Unwritten? ensures !WillRecord(r', i, gate) {
      assert !WillRecord(r, i, gate);
    }
  }

  lemma {:induction false} ClosedStaysClosed(before: seq<Step>, after: seq<Step>, gate: Gate)
    requires IsRun(before + after) && IsRun(before) && gate.locked && !StillOpen(Execute(before), gate)
    ensures !StillOpen(Execute(before + after), gate)
    decreases |after|
  {
    hide Enabled, Inv;
    if after == [] {
      assert before + after == before;
    } else {
      assert Init(before + after) == before + Init(after) && Last(before + after) == Last(after);
      ClosedStaysClosed(before, Init(after), gate);
      RunsKeepInv(before + Init(after));
      StepKeepsClosed(Execute(before + Init(after)), Last(after), gate);
    }
  }

  lemma NewcomerIsChecked(before: seq<Step>, gate: Gate) returns (after: seq<Step>, id: nat)
    requires IsRun(before) && gate.locked
    ensures IsRun(before + after) && id in Execute(before + after).processes
    ensures Execute(before + after).processes[id] == Process(gate, Checked)
    ensures Execute(before + after).files == Execute(before).files
  {
    id := FreshId(Execute(before).processes);
    var launched := Extend(before, Launch(id, gate));
    hide Execute, IsRun;
    var checked := AdvanceOne(launched, id, Process(gate, Launched), Execute(before).files);
    after := [Launch(id, gate), Advance(id)];
    assert before + after == checked;
  }

  lemma CheckedIsAdmittedToAnUnusedSet(before: seq<Step>, id: nat, gate: Gate) returns (after: seq<Step>)
    requires IsRun(before) && gate.locked && gate.expected !in Execute(before).files
    requires id in Execute(before).processes && Execute(before).processes[id] == Process(gate, Checked)
    ensures IsRun(before + after) && Answer(id, gate, false) in Execute(before + after).admitted
  {
    var created := AdvanceOne(before, id, Process(gate, Checked), Execute(before).files);
    hide Execute, IsRun;
    var rest := CreatorIsAdmitted(created, id, gate);
    after := [Advance(id)] + rest;
    assert before + after == created + rest;
  }

  lemma CheckedIsAdmittedAgain(before: seq<Step>, id: nat, gate: Gate) returns (after: seq<Step>)
    requires IsRun(before) && gate.locked && Matches(Execute(before).files, gate)
    requires id in Execute(before).processes && Execute(before).processes[id] == Process(gate, Checked)
    ensures IsRun(before + after) && Answer(id, gate, true) in Execute(before + after).admitted
  {
    var files := Execute(before).files;
    var found := AdvanceOne(before, id, Process(gate, Checked), files);
    hide Execute, IsRun;
    var reserved := AdvanceOne(found, id, Process(gate, Exists), files);
    var rest := ReservedIsAdmitted(reserved, id, gate, true);
    after := [Advance(id), Advance(id)] + rest;
    assert before + after == reserved + rest;
  }

  /** A new process with this gate is admitted when its test set is unused or recorded for it. */
  lemma NewcomerIsAdmitted(before: seq<Step>, gate: Gate) returns (after: seq<Step>, id: nat, used: bool)
    requires IsRun(before) && gate.locked
    requires gate.expected !in Execute(before).files || Matches(Execute(before).files, gate)
    ensures IsRun(before + after) && Answer(id, gate, used) in Execute(before + after).admitted
  {
    hide Execute, IsRun;
    var launch;
    launch, id := NewcomerIsChecked(before, gate);
    used := gate.expected in Execute(before).files;
    var rest;
    if used {
      rest := CheckedIsAdmittedAgain(before + launch, id, gate);
    } else {
      rest := CheckedIsAdmittedToAnUnusedSet(before + launch, id, gate);
    }
    after := launch + rest;
    assert before + after == before + launch + rest;
  }

  lemma OpenGateIsAdmitted(before: seq<Step>, gate: Gate) returns (after: seq<Step>)
    requires IsRun(before) && StillOpen(Execute(before), gate)
    ensures AdmitsLater(before, after, gate)
  {
    RunsKeepInv(before);
    var r := Execute(before);
    if gate.expected !in r.files || Matches(r.files, gate) {
      hide Execute, IsRun;
      var id, used;
      after, id, used := NewcomerIsAdmitted(before, gate);
      assert SamePolicy(Answer(id, gate, used), gate);
    } else {
      var i :| WillRecord(r, i, gate);
      assert ProcessOk(r.files, r.processes[i]);
      hide Execute, IsRun;
      after := CreatorIsAdmitted(before, i, r.processes[i].gate);
      assert SamePolicy(Answer(i, r.processes[i].gate, false), gate);
    }
  }

  /** Which policies a test set still admits, at any moment of any run: a policy and model locked before the test
      is admitted in some continuation if and only if the set has no record, or the record names them, or the
      unwritten record belongs to a process that will name them. */
  lemma AdmittedLaterIffStillOpen(before: seq<Step>, gate: Gate)
    requires IsRun(before) && gate.locked
    ensures (exists after :: AdmitsLater(before, after, gate)) <==> StillOpen(Execute(before), gate)
  {
    if StillOpen(Execute(before), gate) {
      var after := OpenGateIsAdmitted(before, gate);
    } else {
      forall after ensures !AdmitsLater(before, after, gate) {
        if IsRun(before + after) {
          ClosedStaysClosed(before, after, gate);
          RunsKeepInv(before + after);
          hide Execute, IsRun;
          ClosedAdmitsNobody(Execute(before + after), gate);
        }
      }
    }
  }

  lemma ClosedAdmitsNobody(r: Registry, gate: Gate)
    requires Inv(r) && gate.locked && !StillOpen(r, gate)
    ensures forall a :: a in r.admitted ==> !SamePolicy(a, gate)
  {}

  ghost predicate UsedLater(before: seq<Step>, after: seq<Step>, key: Hashes)
  {
    IsRun(before + after) && exists a :: a in Execute(before + after).admitted && a.gate.expected == key
  }

  lemma SomeGateIsOpen(r: Registry, key: Hashes) returns (gate: Gate)
    requires Inv(r) && !Orphaned(r, key)
    ensures gate.expected == key && StillOpen(r, gate)
  {
    if key !in r.files {
      gate := Gate(true, key, "", "");
    } else if r.files[key].Written? {
      assert HasFirst(r.told, key);
      var a :| a in r.told && a.gate.expected == key && !a.previouslyUsed;
      gate := a.gate;
    } else {
      var i :| i in r.processes && r.processes[i].gate.expected == key && r.processes[i].at.Created?;
      assert ProcessOk(r.files, r.processes[i]);
      gate := r.processes[i].gate;
      assert WillRecord(r, i, gate);
    }
  }

  /** An orphaned file is the only way to lose a test set: some process is admitted to it in some continuation if
      and only if its file is not an unwritten one that nobody is about to write. */
  lemma UsedLaterIffNotOrphaned(before: seq<Step>, key: Hashes)
    requires IsRun(before)
    ensures (exists after :: UsedLater(before, after, key)) <==> !Orphaned(Execute(before), key)
  {
    RunsKeepInv(before);
    if Orphaned(Execute(before), key) {
      forall after ensures !UsedLater(before, after, key) {
        if IsRun(before + after) {
          OrphanStaysOrphaned(before, after, key);
          RunsKeepInv(before + after);
          hide Execute, IsRun;
          assert forall a :: a in Execute(before + after).admitted ==> Matches(Execute(before + after).files, a.gate);
        }
      }
    } else {
      hide Execute, IsRun;
      var gate := SomeGateIsOpen(Execute(before), key);
      var after := OpenGateIsAdmitted(before, gate);
      var a :| a in Execute(before + after).admitted && SamePolicy(a, gate);
      assert UsedLater(before, after, key);
    }
  }
}

/** `reserve_holdout` and the receipt check of `load_test`, run without interference. */
module HoldoutReservation {
  import opened Seqs
  import opened HoldoutRegistry

  /** The lock file: its digest now and when it was made, and the files that it fixes, by path and digest. */
  datatype Lock = Lock(digest: string, expectedDigest: string, protected: seq<(string, string)>)

  /** The data set at hand against its manifest, which lists the digests of the test files. */
  datatype Dataset = Dataset(id: string, manifestId: string, manifestDigest: string, knownManifestDigest: string, listed: Hashes)

  predicate Intact(protected: seq<(string, string)>, disk: map<string, string>)
  {
    forall i :: 0 <= i < |protected| ==> protected[i].0 in disk && disk[protected[i].0] == protected[i].1
  }

  class RegistryDirectory {
    var files: map<Hashes, File>

    constructor ()
      ensures files == map[]
    {
      files := map[];
    }

    /** Exclusive creation: fails when the file exists. */
    method Create(key: Hashes) returns (ok: bool)
      modifies this
      ensures ok <==> key !in old(files)
      ensures files == if ok then old(files)[key := Unwritten] else old(files)
    {
      ok := key !in files;
      if ok { files := files[key := Unwritten]; }
    }

    /** Whether the test set was used before, or a refusal. A test set without a file is always granted, a
        reserved one exactly to the same policy and model, and no reservation is ever overwritten. */
    method Reserve(gate: Gate) returns (previouslyUsed: Option<bool>)
      modifies this
      ensures previouslyUsed.None? <==> !gate.locked || (gate.expected in old(files) && !Matches(old(files), gate))
      ensures previouslyUsed.Some? ==> previouslyUsed.value == (gate.expected in old(files)) && Matches(files, gate)
      ensures forall key :: key in old(files) ==> key in files && files[key] == old(files)[key]
      ensures previouslyUsed.None? ==> files == old(files)
    {
      if !gate.locked { return None; }
      var created := Create(gate.expected);
      if created {
        files := files[gate.expected := Written(ReceiptOf(gate))];
        return Some(false);
      }
      var existing := files[gate.expected];
      if existing.Unwritten? { return None; }
      var r := existing.receipt;
      if r.expected != gate.expected || r.policy != gate.policy || r.model != gate.model { return None; }
      return Some(true);
    }

    /** Every protected file is on disk with its recorded digest. */
    method VerifyHashes(protected: seq<(string, string)>, disk: map<string, string>) returns (ok: bool)
      ensures ok <==> Intact(protected, disk)
    {
      for i := 0 to |protected|
        invariant Intact(protected[..i], disk)
      {
        if protected[i].0 !in disk || disk[protected[i].0] != protected[i].1 { return false; }
      }
      assert protected[..|protected|] == protected;
      return true;
    }

    /** The checks up to the digests of the three test files. What is then read are exactly the files that the
        gate names, reserved for the gate's policy and model. */
    method Admit(gate: Gate, lock: Lock, data: Dataset, disk: map<string, string>, read: Hashes) returns (ok: bool)
      ensures ok <==>
        && lock.digest == lock.expectedDigest && gate.locked && Matches(files, gate) && Intact(lock.protected, disk)
        && data.manifestDigest == data.knownManifestDigest && data.manifestId == data.id
        && data.listed == gate.expected == read
    {
      if lock.digest != lock.expectedDigest { return false; }
      if gate.expected !in files || files[gate.expected].Unwritten? { return false; }
      var r := files[gate.expected].receipt;
      if !gate.locked || r.policy != gate.policy || r.expected != gate.expected || r.model != gate.model { return false; }
      var intact := VerifyHashes(lock.protected, disk);
      if !intact { return false; }
      if data.manifestDigest != data.knownManifestDigest || data.listed != gate.expected || data.manifestId != data.id {
        return false;
      }
      ok := read.inputs == gate.expected.inputs && read.targets == gate.expected.targets && read.metadata == gate.expected.metadata;
    }
  }

  datatype Local = Local(files: map<Hashes, File>, process: Process)

  /** One process stepping while no other does. */
  function Alone(l: Local): Local
  {
    Local(NextFiles(l.files, l.process), Process(l.process.gate, NextPosition(l.files, l.process)))
  }

  /** Three undisturbed steps of the protocol are one reservation. */
  lemma ReservationIsThreeSteps(files: map<Hashes, File>, gate: Gate)
    requires gate.locked
    ensures
      var end := Alone(Alone(Alone(Local(files, Process(gate, Launched)))));
      if gate.expected !in files
      then end.process.at == Reserved(false) && end.files == files[gate.expected := Written(ReceiptOf(gate))]
      else end.process.at == (if Matches(files, gate) then Reserved(true) else Stopped) && end.files == files
  {
    var one := Alone(Local(files, Process(gate, Launched)));
    assert one == Local(files, Process(gate, Checked));
    var two := Alone(one);
    if gate.expected !in files {
      assert two == Local(files[gate.expected := Unwritten], Process(gate, Created));
    } else {
      assert two == Local(files, Process(gate, Exists));
    }
  }
}
