/** The lock of one project: how the pin of each environment, its result, the pin to roll
    back to and the freeze evolve over ups, rollbacks, failures and side deploys. */
module LockRecord {
  import opened Options

  /** A commit; a missing, null or empty one is None. */
  type Pin = string

  datatype Word = Ok | Failed | Pending

  datatype Previous = Previous(
    commit: Pin, deployedAt: Option<nat>, receipt: Option<string>, plan: Option<string>,
    containers: Option<map<string, Option<Pin>>>, reason: Option<string>)

  datatype Record = Record(
    commit: Option<Pin>, result: Option<Word>, previous: Option<Previous>, box: Option<string>,
    deployedAt: Option<nat>, receipt: Option<string>, plan: Option<string>, claimed: bool,
    frozen: bool, frozenCommit: Option<Pin>)

  const NO_RECORD := Record(None, None, None, None, None, None, None, false, false, None)

  /** The lock file: the project pin and the record of each environment. */
  datatype State = State(commit: Option<Pin>, envs: map<string, Record>)

  /** What one `bay up` or `bay rollback` of a project writes into its lock. */
  datatype Up = Up(
    pin: Pin, plan: string, rollback: bool, moveTo: Option<string>, planBox: Option<string>,
    containers: Option<map<string, Option<Pin>>>, reason: Option<string>)

  /** What a deploy of another project writes: the compiled commit, its stamp, and for each
      environment of this project that it covers the box and its receipt hash. */
  datatype Side = Side(pin: Pin, at: nat, plan: string, envs: seq<SideEnv>, results: map<string, Word>)
  datatype SideEnv = SideEnv(env: string, box: Option<string>, receipt: Option<string>)

  // ------------------------------------------------------------- reading a record

  function RecordOf(s: State, env: string): Record {
    if env in s.envs then s.envs[env] else NO_RECORD
  }

  predicate Confirmed(r: Record) {
    r.result != Some(Failed) && r.result != Some(Pending)
  }

  predicate Names(previous: Option<Previous>, pin: Pin) {
    previous.Some? && previous.value.commit == pin
  }

  function PreviousFor(r: Record, projectPin: Option<Pin>,
                       containers: Option<map<string, Option<Pin>>>): Option<Previous> {
    var commit := if r.commit.Some? then r.commit else projectPin;
    if commit.None? then None
    else Some(Previous(commit.value, r.deployedAt, r.receipt, r.plan, containers, None))
  }

  // --------------------------------------------------- what each step writes, as functions

  /** The pin to roll back to once `pin` takes the place of the environment's pin. */
  function Replaced(r: Record, projectPin: Option<Pin>, pin: Pin,
                    containers: Option<map<string, Option<Pin>>>): Option<Previous> {
    var was := if r.commit.Some? then r.commit else projectPin;
    if was.None? || was.value == pin then r.previous
    else if Confirmed(r) then PreviousFor(r, projectPin, containers)
    else if Names(r.previous, pin) then None
    else r.previous
  }

  function Reasoned(previous: Option<Previous>, reason: Option<string>): Option<Previous> {
    if reason.Some? && previous.Some? then Some(previous.value.(reason := reason)) else previous
  }

  function Thaws(r: Record, pin: Pin, newer: (Pin, Pin) -> bool): bool {
    r.frozenCommit.Some? && r.frozenCommit.value != pin && newer(r.frozenCommit.value, pin)
  }

  function Frozen(r: Record, pin: Pin, rollback: bool, newer: (Pin, Pin) -> bool): Record {
    if rollback then r.(frozen := true, frozenCommit := Some(pin))
    else if r.frozen && Thaws(r, pin, newer) then r.(frozen := false, frozenCommit := None)
    else r
  }

  function BoxFor(r: Record, up: Up): Option<string> {
    if up.moveTo.Some? then up.moveTo else if r.box.Some? then r.box else up.planBox
  }

  function ClaimedRecord(r: Record, projectPin: Option<Pin>, up: Up, newer: (Pin, Pin) -> bool): Record {
    Frozen(r.(previous := Reasoned(Replaced(r, projectPin, up.pin, up.containers), up.reason),
              box := BoxFor(r, up), commit := Some(up.pin), result := Some(Pending),
              plan := Some(up.plan), claimed := true),
           up.pin, up.rollback, newer)
  }

  /** The lock that the claim commits. */
  function Claimed(s: State, env: string, up: Up, newer: (Pin, Pin) -> bool): State {
    State(Some(up.pin), s.envs[env := ClaimedRecord(RecordOf(s, env), s.commit, up, newer)])
  }

  /** The lock that the receipt commits. */
  function Settled(s: State, env: string, word: Word, at: nat, receipt: Option<string>): State {
    s.(envs := s.envs[env := RecordOf(s, env).(result := Some(word), deployedAt := Some(at), claimed := false,
        receipt := receipt)])
  }

  /** Does a side deploy stamp this record? Not when the deploy did not reach its box, and
      not when a failed box says nothing new about a pin that stays and was confirmed. */
  predicate Stamps(r: Record, projectPin: Option<Pin>, side: Side, e: SideEnv) {
    var box := if r.box.Some? then r.box else e.box;
    var was := if r.commit.Some? then r.commit else projectPin;
    && box.Some? && box.value in side.results
    && !(side.results[box.value] == Failed && was == Some(side.pin) && r.result == Some(Ok))
  }

  function StampedRecord(r: Record, projectPin: Option<Pin>, side: Side, e: SideEnv): Record
    requires Stamps(r, projectPin, side, e)
  {
    var box := if r.box.Some? then r.box else e.box;
    r.(previous := Replaced(r, projectPin, side.pin, None), box := box,
       commit := Some(side.pin), deployedAt := Some(side.at), plan := Some(side.plan),
       result := Some(side.results[box.value]), receipt := e.receipt, claimed := false)
  }

  function StampedEnvs(s: State, side: Side, n: nat): map<string, Record>
    requires n <= |side.envs|
  {
    if n == 0 then s.envs
    else
      var envs, e := StampedEnvs(s, side, n - 1), side.envs[n - 1];
      var r := RecordOf(s, e.env);
      if Stamps(r, s.commit, side, e) then envs[e.env := StampedRecord(r, s.commit, side, e)] else envs
  }

  predicate Touches(s: State, side: Side) {
    exists i :: 0 <= i < |side.envs| && Stamps(RecordOf(s, side.envs[i].env), s.commit, side, side.envs[i])
  }

  function Stamped(s: State, side: Side): State {
    if Touches(s, side) then State(Some(side.pin), StampedEnvs(s, side, |side.envs|)) else s
  }

  /** The environments of one document: each once. */
  predicate Distinct(envs: seq<SideEnv>) {
    forall i, j | 0 <= i < j < |envs| :: envs[i].env != envs[j].env
  }

  // ----------------------------------------------------------------- the lock file

  class Lock {
    var commit: Option<Pin>
    var envs: map<string, Record>

    constructor (s: State)
      ensures Now() == s
    {
      commit, envs := s.commit, s.envs;
    }

    function Now(): State
      reads this
    {
      State(commit, envs)
    }

    /** The previous pin of a record whose pin is replaced, and the record without the
        previous that the new pin makes meaningless. */
    method Replace(r: Record, pin: Pin, containers: Option<map<string, Option<Pin>>>)
      returns (record: Record, previous: Option<Previous>)
      ensures previous == Replaced(r, commit, pin, containers)
      ensures record == if previous.None? then r.(previous := None) else r
    {
      record, previous := r, r.previous;
      var oldPin := if r.commit.Some? then r.commit else commit;
      if oldPin.Some? && oldPin.value != pin {
        if Confirmed(record) {
          previous := PreviousFor(record, commit, containers);
        } else if Names(previous, pin) {
          previous := None;
          record := record.(previous := None);
        }
      }
    }

    /** The lock step of an up or a rollback: the new pin, pending. */
    method Claim(env: string, up: Up, newer: (Pin, Pin) -> bool)
      modifies this
      ensures Now() == Claimed(old(Now()), env, up, newer)
    {
      var start := if env in envs then envs[env] else NO_RECORD;
      var record, previous := Replace(start, up.pin, up.containers);
      if up.reason.Some? && previous.Some? {
        previous := Some(previous.value.(reason := up.reason));
      }
      if up.moveTo.Some? {
        record := record.(box := up.moveTo);
      } else if record.box.None? && up.planBox.Some? {
        record := record.(box := up.planBox);
      }
      assert record.box == BoxFor(start, up);
      record := record.(commit := Some(up.pin), result := Some(Pending), plan := Some(up.plan), claimed := true);
      if previous.Some? {
        record := record.(previous := previous);
      }
      record := Freeze(record, up.pin, up.rollback, newer);
      assert record == ClaimedRecord(start, commit, up, newer);
      commit := Some(up.pin);
      envs := envs[env := record];
    }

    method Freeze(record: Record, pin: Pin, rollback: bool, newer: (Pin, Pin) -> bool) returns (r: Record)
      ensures r == Frozen(record, pin, rollback, newer)
    {
      r := record;
      if rollback {
        r := r.(frozen := true);
        r := r.(frozenCommit := Some(pin));
        return;
      }
      if !r.frozen {
        return;
      }
      var at := record.frozenCommit;
      if at.None? || at.value == pin || !newer(at.value, pin) {
        return;
      }
      r := r.(frozen := false);
      r := r.(frozenCommit := None);
    }

    /** The receipt step. */
    method Settle(env: string, word: Word, at: nat, receipt: Option<string>)
      modifies this`envs
      ensures Now() == Settled(old(Now()), env, word, at, receipt)
    {
      var record := if env in envs then envs[env] else NO_RECORD;
      record := record.(result := Some(word));
      record := record.(deployedAt := Some(at));
      record := record.(claimed := false);
      record := record.(receipt := receipt);
      envs := envs[env := record];
    }

    /** One environment of a side deploy: its new record, unless it is left as it was. */
    method Stamp(start: Record, side: Side, e: SideEnv) returns (stamps: bool, record: Record)
      ensures stamps == Stamps(start, commit, side, e)
      ensures stamps ==> record == StampedRecord(start, commit, side, e)
    {
      record := start;
      var box := if record.box.Some? then record.box else e.box;
      if box.None? || box.value !in side.results {
        return false, record;
      }
      var result := side.results[box.value];
      var oldPin := if record.commit.Some? then record.commit else commit;
      if result == Failed && oldPin == Some(side.pin) && record.result == Some(Ok) {
        return false, record;
      }
      var previous;
      record, previous := Replace(record, side.pin, None);
      if previous.Some? {
        record := record.(previous := previous);
      }
      if record.box.None? && e.box.Some? {
        record := record.(box := e.box);
      }
      record := record.(commit := Some(side.pin), deployedAt := Some(side.at), plan := Some(side.plan),
                        result := Some(result), receipt := e.receipt);
      record := record.(claimed := false);
      stamps := true;
    }

    /** The deploy of another project also ran this one. */
    method PinDeployed(side: Side)
      requires Distinct(side.envs)
      modifies this
      ensures Now() == Stamped(old(Now()), side)
    {
      ghost var start := Now();
      var touched := false;
      for n := 0 to |side.envs|
        invariant commit == start.commit
        invariant envs == StampedEnvs(start, side, n)
        invariant forall i | n <= i < |side.envs| ::
            RecordOf(Now(), side.envs[i].env) == RecordOf(start, side.envs[i].env)
        invariant touched <==>
            exists i :: 0 <= i < n && Stamps(RecordOf(start, side.envs[i].env), start.commit, side, side.envs[i])
        invariant !touched ==> envs == start.envs
      {
        var e := side.envs[n];
        var stamps, record := Stamp(if e.env in envs then envs[e.env] else NO_RECORD, side, e);
        if !stamps {
          continue;
        }
        envs := envs[e.env := record];
        touched := true;
      }
      if touched {
        commit := Some(side.pin);
      }
    }
  }

  // ------------------------------------------------------------------ runs of one lock

  /** One run of Bay that writes this lock. `RollsTo` is a rollback to a commit the caller
      names; it pins `up.pin`, which is the pin the environment has when the bay.toml lives
      in the fleet. The outcome is None when the run was cut before its receipt: the
      record stays pending. */
  datatype Event =
    | Ups(env: string, up: Up, outcome: Option<Outcome>)
    | Rolls(env: string, up: Up, outcome: Option<Outcome>)
    | RollsTo(env: string, up: Up, outcome: Option<Outcome>)
    | Deploys(side: Side)
  datatype Outcome = Outcome(word: Word, at: nat, receipt: Option<string>)

  function Finished(s: State, env: string, outcome: Option<Outcome>): State {
    if outcome.None? then s else Settled(s, env, outcome.value.word, outcome.value.at, outcome.value.receipt)
  }

  /** The previous pin is what a plain rollback goes to; with none it is refused. */
  function Step(s: State, e: Event, newer: (Pin, Pin) -> bool): State {
    match e
    case Ups(env, up, outcome) => Finished(Claimed(s, env, up.(rollback := false), newer), env, outcome)
    case Rolls(env, up, outcome) =>
      var previous := RecordOf(s, env).previous;
      if previous.None? then s
      else Finished(Claimed(s, env, up.(rollback := true, pin := previous.value.commit), newer), env, outcome)
    case RollsTo(env, up, outcome) => Finished(Claimed(s, env, up.(rollback := true), newer), env, outcome)
    case Deploys(side) => Stamped(s, side)
  }

  ghost predicate Run(trace: seq<State>, events: seq<Event>, newer: (Pin, Pin) -> bool) {
    && |trace| == |events| + 1
    && (forall i | 0 <= i < |events| :: trace[i + 1] == Step(trace[i], events[i], newer))
    && (forall i | 0 <= i < |events| :: WellFormed(events[i]))
  }

  predicate WellFormed(e: Event) {
    e.Deploys? ==> Distinct(e.side.envs)
  }

  /** A record with a commit of its own. */
  predicate Owned(s: State, env: string) {
    RecordOf(s, env).commit.Some?
  }

  function CommitOf(s: State, env: string): Pin
    requires Owned(s, env)
  {
    RecordOf(s, env).commit.value
  }

  // ------------------------------------------------- one event, seen from one record

  /** What one event does to the pin, the previous pin and the confirmation of a record:
      nothing, or it pins `pin` with the previous that `Replaced` says. */
  predicate Moves(r: Record, r': Record) {
    || r' == r
    || (r'.commit.Some? && r.commit.Some? &&
        Target(r'.previous) == Target(Replaced(r, None, r'.commit.value, None)))
  }

  function Target(previous: Option<Previous>): Option<Pin> {
    if previous.Some? then Some(previous.value.commit) else None
  }

  lemma {:induction false} StampedEnvsAt(s: State, side: Side, n: nat, env: string)
    requires n <= |side.envs| && Distinct(side.envs)
    ensures (forall i | 0 <= i < n :: side.envs[i].env != env) ==>
              (env in StampedEnvs(s, side, n) <==> env in s.envs) &&
              (env in s.envs ==> StampedEnvs(s, side, n)[env] == s.envs[env])
    ensures forall i | 0 <= i < n && side.envs[i].env == env ::
              if Stamps(RecordOf(s, env), s.commit, side, side.envs[i]) then
                env in StampedEnvs(s, side, n) && StampedEnvs(s, side, n)[env] ==
                    StampedRecord(RecordOf(s, env), s.commit, side, side.envs[i])
              else
                (env in StampedEnvs(s, side, n) <==> env in s.envs) &&
                    (env in s.envs ==> StampedEnvs(s, side, n)[env] == s.envs[env])
  {
    if n > 0 {
      StampedEnvsAt(s, side, n - 1, env);
    }
  }

  lemma StampedAt(s: State, side: Side, env: string)
    requires Distinct(side.envs)
    ensures RecordOf(Stamped(s, side), env) == RecordOf(s, env) ||
            exists i :: 0 <= i < |side.envs| && side.envs[i].env == env &&
                Stamps(RecordOf(s, env), s.commit, side, side.envs[i])
                        && RecordOf(Stamped(s, side), env) ==
                             StampedRecord(RecordOf(s, env), s.commit, side, side.envs[i])
    ensures forall i | 0 <= i < |side.envs| && side.envs[i].env == env &&
              Stamps(RecordOf(s, env), s.commit, side, side.envs[i]) ::
              RecordOf(Stamped(s, side), env) == StampedRecord(RecordOf(s, env), s.commit, side, side.envs[i])
  {
    StampedEnvsAt(s, side, |side.envs|, env);
  }

  /** What is put behind when `pin` takes the place of the pin of a record: the old pin with
      its time, receipt and plan, when it was confirmed; else what was behind, unless that is
      the new pin. */
  predicate PutsBehind(r: Record, r': Record, was: Option<Pin>, pin: Pin, containers: Option<map<string, Option<Pin>>>,
                       reason: Option<string>) {
    if was.None? || was.value == pin then r'.previous == Reasoned(r.previous, reason)
    else if r.result == None || r.result == Some(Ok) then
      r'.previous == Some(Previous(was.value, r.deployedAt, r.receipt, r.plan, containers, reason))
    else if r.previous.Some? && r.previous.value.commit == pin then r'.previous == None
    else r'.previous == Reasoned(r.previous, reason)
  }

  /** The deploy did not reach the box of the record, or the box failed and the record has
      that very pin and was ok. */
  predicate LeftAlone(r: Record, projectPin: Option<Pin>, side: Side, e: SideEnv) {
    var box, was := if r.box.Some? then r.box else e.box, if r.commit.Some? then r.commit else projectPin;
    || box.None? || box.value !in side.results
    || (side.results[box.value] == Failed && was == Some(side.pin) && r.result == Some(Ok))
  }

  /** A side deploy, record by record: one that it does not cover stays, and so does one of
      which the box was not reached, or failed while the record had that very pin and was
      ok. Any other gets the deploy's pin and the word of its own box. The project pin
      moves with the first such record. */
  lemma SideDeployAt(s: State, side: Side, env: string)
    requires Distinct(side.envs)
    ensures (forall i | 0 <= i < |side.envs| :: side.envs[i].env != env) ==>
              RecordOf(Stamped(s, side), env) == RecordOf(s, env)
    ensures forall i | 0 <= i < |side.envs| && side.envs[i].env == env ::
              var e, r, r' := side.envs[i], RecordOf(s, env), RecordOf(Stamped(s, side), env);
              var box, was := if r.box.Some? then r.box else e.box, if r.commit.Some? then r.commit else s.commit;
              if LeftAlone(r, s.commit, side, e) then r' == r
              else
                && r'.commit == Some(side.pin) && r'.result == Some(side.results[box.value]) && r'.box == box
                && r'.deployedAt == Some(side.at) && r'.plan == Some(side.plan)
                && r'.receipt == e.receipt && !r'.claimed
                && r'.frozen == r.frozen && r'.frozenCommit == r.frozenCommit
                && PutsBehind(r, r', was, side.pin, None, None)
                && Stamped(s, side).commit == Some(side.pin)
    ensures (forall i | 0 <= i < |side.envs| ::
              LeftAlone(RecordOf(s, side.envs[i].env), s.commit, side, side.envs[i])) ==> Stamped(s, side) == s
  {
    StampedAt(s, side, env);
    ConfirmedMeans(RecordOf(s, env));
  }

  /** Neither failed nor pending: ok, or from before results were recorded. */
  lemma ConfirmedMeans(r: Record)
    ensures Confirmed(r) <==> r.result == None || r.result == Some(Ok)
  {
    match r.result
    case None =>
    case Some(Ok) =>
    case Some(Failed) =>
    case Some(Pending) =>
  }

  /** What the claim of an up or a rollback writes into its record, and that it writes into
      no other. A rollback freezes; an up thaws when its pin is newer than the frozen one. */
  lemma ClaimWrites(s: State, env: string, up: Up, newer: (Pin, Pin) -> bool)
    ensures var r, r' := RecordOf(s, env), RecordOf(Claimed(s, env, up, newer), env);
            && r'.commit == Some(up.pin) && r'.result == Some(Pending) && r'.plan == Some(up.plan) && r'.claimed
            && r'.box == (if up.moveTo.Some? then up.moveTo else if r.box.Some? then r.box else up.planBox)
            && r'.deployedAt == r.deployedAt && r'.receipt == r.receipt
            && PutsBehind(r, r', if r.commit.Some? then r.commit else s.commit, up.pin, up.containers, up.reason)
    ensures var r' := RecordOf(Claimed(s, env, up, newer), env);
            if up.rollback then r'.frozen && r'.frozenCommit == Some(up.pin)
            else if env !in s.envs then r' == Record(Some(up.pin), Some(Pending), r'.previous, r'.box, None, None,
                                                     Some(up.plan), true, false, None)
            else
              var r := s.envs[env];
              var at := r.frozenCommit;
              if r.frozen && at.Some? && at.value != up.pin && newer(at.value, up.pin)
                then !r'.frozen && r'.frozenCommit == None
                else r'.frozen == r.frozen && r'.frozenCommit == at
    ensures Claimed(s, env, up, newer).commit == Some(up.pin)
    ensures forall e: string :: e != env ==> RecordOf(Claimed(s, env, up, newer), e) == RecordOf(s, e)
  {
    ConfirmedMeans(RecordOf(s, env));
  }

  /** What the receipt writes, and that it leaves pin, previous, box, plan and freeze. */
  lemma SettleWrites(s: State, env: string, word: Word, at: nat, receipt: Option<string>)
    ensures var r, r' := RecordOf(s, env), RecordOf(Settled(s, env, word, at, receipt), env);
            && r'.result == Some(word) && r'.deployedAt == Some(at) && r'.receipt == receipt && !r'.claimed
            && r'.commit == r.commit && r'.previous == r.previous && r'.box == r.box && r'.plan == r.plan
            && r'.frozen == r.frozen && r'.frozenCommit == r.frozenCommit
    ensures Settled(s, env, word, at, receipt).commit == s.commit
    ensures forall e: string :: e != env ==> RecordOf(Settled(s, env, word, at, receipt), e) == RecordOf(s, e)
  {
  }

  lemma StepMoves(s: State, e: Event, newer: (Pin, Pin) -> bool, env: string)
    requires Owned(s, env) && WellFormed(e)
    ensures Owned(Step(s, e, newer), env)
    ensures Moves(RecordOf(s, env), RecordOf(Step(s, e, newer), env))
  {
    if e.Deploys? {
      StampedAt(s, e.side, env);
    }
  }

  // ------------------------------------------------------------- the previous pin

  /** The step into state `i` took a confirmed pin away from the environment. */
  predicate TookConfirmed(trace: seq<State>, env: string, i: nat)
    requires forall s | s in trace :: Owned(s, env)
  {
    && 0 < i < |trace| && Confirmed(RecordOf(trace[i - 1], env))
    && CommitOf(trace[i], env) != CommitOf(trace[i - 1], env)
  }

  /** `p` is what state `i` put behind: the confirmed pin it replaced, or the previous the
      run started with. */
  predicate PutBehind(trace: seq<State>, env: string, i: nat, p: Pin)
    requires forall s | s in trace :: Owned(s, env)
  {
    && i < |trace|
    && if i == 0 then Target(RecordOf(trace[0], env).previous) == Some(p)
       else TookConfirmed(trace, env, i) && CommitOf(trace[i - 1], env) == p
  }

  /** Since state `i` no other confirmed pin was replaced, and `p` was not pinned again. */
  predicate StillBehind(trace: seq<State>, env: string, i: nat, p: Pin)
    requires forall s | s in trace :: Owned(s, env)
  {
    forall k | i < k < |trace| :: !TookConfirmed(trace, env, k) && CommitOf(trace[k], env) != p
  }

  lemma AlwaysOwned(trace: seq<State>, events: seq<Event>, newer: (Pin, Pin) -> bool, env: string)
    requires Run(trace, events, newer) && Owned(trace[0], env)
    ensures forall s | s in trace :: Owned(s, env)
  {
    forall i: nat | i < |trace| ensures Owned(trace[i], env) { OwnedAt(trace, events, newer, env, i); }
  }

  lemma {:induction false} OwnedAt(trace: seq<State>, events: seq<Event>, newer: (Pin, Pin) -> bool, env: string,
                                   i: nat)
    requires Run(trace, events, newer) && Owned(trace[0], env) && i < |trace|
    ensures Owned(trace[i], env)
  {
    if i > 0 {
      OwnedAt(trace, events, newer, env, i - 1);
      assert trace[i - 1 + 1] == Step(trace[i - 1], events[i - 1], newer);
      StepMoves(trace[i - 1], events[i - 1], newer, env);
    }
  }

  /** Over every run of ups, rollbacks and side deploys, whatever their outcomes: the
      previous pin is never the pin itself, and it is `p` exactly when `p` is the last
      confirmed pin that was replaced and it has not been pinned again since. */
  lemma {:induction false} PreviousIsLastConfirmedReplaced(
      trace: seq<State>, events: seq<Event>, newer: (Pin, Pin) -> bool, env: string, p: Pin)
    requires Run(trace, events, newer) && Owned(trace[0], env)
    requires Target(RecordOf(trace[0], env).previous) != RecordOf(trace[0], env).commit
    ensures forall s | s in trace :: Owned(s, env)
    ensures var last := RecordOf(trace[|trace| - 1], env);
            && Target(last.previous) != last.commit
            && (Target(last.previous) == Some(p) <==>
                  exists i: nat :: PutBehind(trace, env, i, p) && StillBehind(trace, env, i, p))
    decreases |events|
  {
    AlwaysOwned(trace, events, newer, env);
    var n := |events|;
    if n == 0 {
      assert Target(RecordOf(trace[0], env).previous) == Some(p) <==> PutBehind(trace, env, 0, p);
      assert StillBehind(trace, env, 0, p);
    } else {
      var front := trace[..n];
      assert trace == front + [trace[n]];
      PreviousIsLastConfirmedReplaced(front, events[..n - 1], newer, env, p);
      StepMoves(trace[n - 1], events[n - 1], newer, env);
      assert trace[n] == Step(trace[n - 1], events[n - 1], newer);
      BehindGrows(front, trace[n], env, p);
    }
  }

  /** One step, seen from the previous pin. */
  lemma MovesTarget(r: Record, r': Record)
    requires r.commit.Some? && r'.commit.Some? && Moves(r, r') && Target(r.previous) != r.commit
    ensures Target(r'.previous) ==
            if Confirmed(r) && r'.commit != r.commit then r.commit
            else if Target(r.previous) == r'.commit then None
            else Target(r.previous)
  {
  }

  /** One more state: what was behind stays so unless the step replaces a confirmed pin or
      pins it again. */
  lemma StillBehindGrows(front: seq<State>, s: State, env: string, i: nat, p: Pin)
    requires front != [] && i < |front| && (forall t | t in front :: Owned(t, env)) && Owned(s, env)
    ensures PutBehind(front + [s], env, i, p) <==> PutBehind(front, env, i, p)
    ensures StillBehind(front + [s], env, i, p) <==>
              StillBehind(front, env, i, p) && !TookConfirmed(front + [s], env, |front|) && CommitOf(s, env) != p
  {
    var trace, n := front + [s], |front|;
    assert forall k | 0 <= k < n :: trace[k] == front[k];
    assert forall k | 0 < k < n :: TookConfirmed(trace, env, k) <==> TookConfirmed(front, env, k);
    if StillBehind(trace, env, i, p) {
      assert !TookConfirmed(trace, env, n) && trace[n] == s;
      forall k | i < k < n ensures !TookConfirmed(front, env, k) && CommitOf(front[k], env) != p {
        assert !TookConfirmed(trace, env, k);
      }
    }
  }

  lemma BehindGrows(front: seq<State>, s: State, env: string, p: Pin)
    requires front != [] && (forall t | t in front :: Owned(t, env)) && Owned(s, env)
    requires var last := RecordOf(front[|front| - 1], env);
             Target(last.previous) != last.commit && Moves(last, RecordOf(s, env))
    requires Target(RecordOf(front[|front| - 1], env).previous) == Some(p) <==>
               exists i: nat :: PutBehind(front, env, i, p) && StillBehind(front, env, i, p)
    ensures Target(RecordOf(s, env).previous) != RecordOf(s, env).commit
    ensures Target(RecordOf(s, env).previous) == Some(p) <==>
              exists i: nat :: PutBehind(front + [s], env, i, p) && StillBehind(front + [s], env, i, p)
  {
    var trace, n := front + [s], |front|;
    var last, r := RecordOf(front[n - 1], env), RecordOf(s, env);
    MovesTarget(last, r);
    assert trace[n] == s && trace[n - 1] == front[n - 1];
    assert TookConfirmed(trace, env, n) <==> Confirmed(last) && r.commit != last.commit;
    forall i: nat | i < n
      ensures PutBehind(trace, env, i, p) && StillBehind(trace, env, i, p) <==>
                PutBehind(front, env, i, p) && StillBehind(front, env, i, p) && !TookConfirmed(trace, env, n) &&
                    CommitOf(s, env) != p
    {
      StillBehindGrows(front, s, env, i, p);
    }
    assert PutBehind(trace, env, n, p) <==> TookConfirmed(trace, env, n) && last.commit == Some(p);
    assert StillBehind(trace, env, n, p);
  }

  // ---------------------------------------------------------------- rolling back

  /** A rollback goes to the previous pin, freezes there, and leaves the pin it replaced as
      the previous exactly when that one was confirmed: otherwise nothing is left. */
  lemma RollbackSwapsIffConfirmed(s: State, env: string, up: Up, outcome: Option<Outcome>, newer: (Pin, Pin) -> bool)
    requires Owned(s, env) && RecordOf(s, env).previous.Some?
    requires RecordOf(s, env).previous.value.commit != CommitOf(s, env)
    ensures var r, r' := RecordOf(s, env), RecordOf(Step(s, Rolls(env, up, outcome), newer), env);
            && r'.commit == Target(r.previous) && r'.frozen && r'.frozenCommit == r'.commit
            && Target(r'.previous) == (if Confirmed(r) then r.commit else None)
  {
    var r, pin := RecordOf(s, env), RecordOf(s, env).previous.value.commit;
    assert Replaced(r, s.commit, pin, up.containers) == if Confirmed(r) then PreviousFor(r, s.commit, up.containers)
        else None;
  }

  /** After an up that went well, rolling back swaps the two pins and doing it twice is
      the identity on them. */
  lemma RollbackTwice(s: State, env: string, up: Up, back: Up, forth: Up, ok: Outcome, newer: (Pin, Pin) -> bool)
    requires Owned(s, env) && Confirmed(RecordOf(s, env)) && up.pin != CommitOf(s, env) && ok.word == Ok
    ensures var done := Step(s, Ups(env, up, Some(ok)), newer);
            var once := Step(done, Rolls(env, back, Some(ok)), newer);
            var twice := Step(once, Rolls(env, forth, Some(ok)), newer);
            && RecordOf(done, env).commit == Some(up.pin) &&
                 Target(RecordOf(done, env).previous) == Some(CommitOf(s, env))
            && RecordOf(once, env).commit == Some(CommitOf(s, env)) &&
                 Target(RecordOf(once, env).previous) == Some(up.pin)
            && RecordOf(twice, env).commit == RecordOf(done, env).commit
            && Target(RecordOf(twice, env).previous) == Target(RecordOf(done, env).previous)
  {
    var done := Step(s, Ups(env, up, Some(ok)), newer);
    RollbackSwapsIffConfirmed(done, env, back, Some(ok), newer);
    var once := Step(done, Rolls(env, back, Some(ok)), newer);
    RollbackSwapsIffConfirmed(once, env, forth, Some(ok), newer);
  }

  /** After an up that failed or was cut, a rollback returns to the last confirmed pin and
      leaves no previous, so that a second rollback is refused. */
  lemma RollbackAfterFailedUp(s: State, env: string, up: Up, cut: Option<Outcome>, back: Up, outcome: Option<Outcome>,
                              again: Up, newer: (Pin, Pin) -> bool)
    requires Owned(s, env) && Confirmed(RecordOf(s, env)) && up.pin != CommitOf(s, env)
    requires cut.Some? ==> cut.value.word != Ok
    ensures var failed := Step(s, Ups(env, up, cut), newer);
            var rolled := Step(failed, Rolls(env, back, outcome), newer);
            && RecordOf(rolled, env).commit == Some(CommitOf(s, env)) && RecordOf(rolled, env).previous == None
            && Step(rolled, Rolls(env, again, outcome), newer) == rolled
  {
    var failed := Step(s, Ups(env, up, cut), newer);
    RollbackSwapsIffConfirmed(failed, env, back, outcome, newer);
  }

  /** The pin that an event writes into the records it writes. */
  function PinOf(s: State, e: Event): Option<Pin> {
    match e
    case Ups(_, up, _) => Some(up.pin)
    case Rolls(env, _, _) => Target(RecordOf(s, env).previous)
    case RollsTo(_, up, _) => Some(up.pin)
    case Deploys(side) => Some(side.pin)
  }

  /** Does the event write a pin into the record? */
  predicate Pins(s: State, e: Event, env: string) {
    match e
    case Ups(on, _, _) => on == env
    case Rolls(on, _, _) => on == env && RecordOf(s, env).previous.Some?
    case RollsTo(on, _, _) => on == env
    case Deploys(side) =>
      exists i :: 0 <= i < |side.envs| && side.envs[i].env == env &&
          Stamps(RecordOf(s, env), s.commit, side, side.envs[i])
  }

  /** The rule needs a record with a commit of its own. The event that gives a record its
      first commit takes the project pin for the one it replaces: unless the record has a
      failed or pending result, the project pin goes behind when it is another one. */
  lemma FreshEnvTakesTheProjectPin(s: State, e: Event, newer: (Pin, Pin) -> bool, env: string)
    requires WellFormed(e) && !Owned(s, env)
    ensures Owned(Step(s, e, newer), env) <==> Pins(s, e, env)
    ensures Pins(s, e, env) ==>
              var r, r' := RecordOf(s, env), RecordOf(Step(s, e, newer), env);
              var other := s.commit.Some? && s.commit != PinOf(s, e);
              && r'.commit == PinOf(s, e)
              && Target(r'.previous) == (if other && Confirmed(r) then s.commit
                                         else if other && Target(r.previous) == PinOf(s, e) then None
                                         else Target(r.previous))
              && (r.previous.None? ==> Target(r'.previous) != r'.commit)
  {
    match e
    case Deploys(side) => StampedAt(s, side, env);
    case Ups(on, up, _) =>
      if on == env { FreshClaim(s, env, up.(rollback := false), newer); }
    case RollsTo(on, up, _) =>
      if on == env { FreshClaim(s, env, up.(rollback := true), newer); }
    case Rolls(on, up, _) =>
      if on == env && RecordOf(s, env).previous.Some? {
        FreshClaim(s, env, up.(rollback := true, pin := RecordOf(s, env).previous.value.commit), newer);
      }
  }

  lemma FreshClaim(s: State, env: string, up: Up, newer: (Pin, Pin) -> bool)
    requires !Owned(s, env)
    ensures var r, r' := RecordOf(s, env), RecordOf(Claimed(s, env, up, newer), env);
            var other := s.commit.Some? && s.commit != r'.commit;
            && r'.commit == Some(up.pin)
            && Target(r'.previous) == (if other && Confirmed(r) then s.commit
                                       else if other && Target(r.previous) == r'.commit then None
                                       else Target(r.previous))
  {
  }

  /** Some environment ran `pin` and did not fail. */
  predicate ConfirmedSomewhere(s: State, pin: Pin) {
    exists env :: env in s.envs && s.envs[env].commit == Some(pin) && Confirmed(s.envs[env])
  }

  /** So a pin that no environment confirmed is put behind a fresh record exactly when it
      is the project pin, another one than the new pin, and the record has no failed or
      pending result. */
  lemma UnconfirmedPinGoesBehindIff(s: State, e: Event, newer: (Pin, Pin) -> bool, env: string, pin: Pin)
    requires WellFormed(e) && !Owned(s, env) && RecordOf(s, env).previous.None? && Pins(s, e, env)
    requires !ConfirmedSomewhere(s, pin)
    ensures Target(RecordOf(Step(s, e, newer), env).previous) == Some(pin) <==>
              s.commit == Some(pin) && PinOf(s, e) != Some(pin) && Confirmed(RecordOf(s, env))
  {
    FreshEnvTakesTheProjectPin(s, e, newer, env);
  }

  /** For example the first up of one environment after a failed up of another. */
  lemma FailedPinGoesBehind(up: Up, outcome: Option<Outcome>, newer: (Pin, Pin) -> bool)
    requires up.pin != "failed"
    ensures var s := State(Some("failed"), map["prod" := NO_RECORD.(commit := Some("failed"), result := Some(Failed))]);
            && !ConfirmedSomewhere(s, "failed")
            && Target(RecordOf(Step(s, Ups("staging", up, outcome), newer), "staging").previous) == Some("failed")
  {
    var s := State(Some("failed"), map["prod" := NO_RECORD.(commit := Some("failed"), result := Some(Failed))]);
    UnconfirmedPinGoesBehindIff(s, Ups("staging", up, outcome), newer, "staging", "failed");
  }

  // ------------------------------------------------------------------- the freeze

  /** The pin that event `e` rolls the environment back to. */
  function RollbackPin(s: State, e: Event, env: string): Option<Pin> {
    match e
    case Rolls(on, _, _) => if on == env then Target(RecordOf(s, env).previous) else None
    case RollsTo(on, up, _) => if on == env then Some(up.pin) else None
    case _ => None
  }

  /** Event `i` rolled the environment back to `f`. */
  predicate RolledTo(trace: seq<State>, events: seq<Event>, env: string, i: nat, f: Pin) {
    i < |events| && i < |trace| && RollbackPin(trace[i], events[i], env) == Some(f)
  }

  /** An up to a commit newer than `f`. */
  predicate UpPast(e: Event, env: string, f: Pin, newer: (Pin, Pin) -> bool) {
    e.Ups? && e.env == env && e.up.pin != f && newer(f, e.up.pin)
  }

  ghost predicate FrozenSince(trace: seq<State>, events: seq<Event>, env: string, newer: (Pin, Pin) -> bool, i: nat,
                              f: Pin) {
    && RolledTo(trace, events, env, i, f)
    && (forall k | i < k < |events| :: !UpPast(events[k], env, f, newer))
    && (forall k: nat, g: Pin | i < k < |events| :: !RolledTo(trace, events, env, k, g))
  }

  function Freeze(r: Record): Option<Option<Pin>> {
    if r.frozen then Some(r.frozenCommit) else None
  }

  lemma StepFreeze(s: State, e: Event, newer: (Pin, Pin) -> bool, env: string)
    requires WellFormed(e)
    ensures var r, r' := RecordOf(s, env), RecordOf(Step(s, e, newer), env);
            Freeze(r') ==
              if RollbackPin(s, e, env).Some? then Some(RollbackPin(s, e, env))
              else if r.frozen && r.frozenCommit.Some? && UpPast(e, env, r.frozenCommit.value, newer) then None
              else Freeze(r)
  {
    if e.Deploys? {
      StampedAt(s, e.side, env);
    }
  }

  /** Over every run from an unfrozen record: it is frozen at `f` exactly when some
      rollback went to `f`, plain or to a named commit, none came after it, and no later
      up went to a commit newer than `f`. Side deploys, failures and other environments
      change nothing. */
  lemma {:induction false} FrozenUntilNewerUp(
      trace: seq<State>, events: seq<Event>, newer: (Pin, Pin) -> bool, env: string, f: Option<Pin>)
    requires Run(trace, events, newer) && !RecordOf(trace[0], env).frozen
    ensures var last := RecordOf(trace[|trace| - 1], env);
            Freeze(last) == Some(f) <==> f.Some? && exists i: nat :: FrozenSince(trace, events, env, newer, i, f.value)
    decreases |events|
  {
    var n := |events|;
    if n > 0 {
      var front, before := trace[..n], events[..n - 1];
      var r := RecordOf(trace[n - 1], env);
      assert trace == front + [trace[n]] && events == before + [events[n - 1]];
      assert trace[n] == Step(trace[n - 1], events[n - 1], newer);
      StepFreeze(trace[n - 1], events[n - 1], newer, env);
      FrozenUntilNewerUp(front, before, newer, env, f);
      if r.frozen {
        FrozenUntilNewerUp(front, before, newer, env, r.frozenCommit);
      }
      if f.Some? {
        FreezeGrows(front, before, trace[n], events[n - 1], newer, env, f.value);
      }
    }
  }

  lemma FreezeGrows(front: seq<State>, before: seq<Event>, s: State, e: Event, newer: (Pin, Pin) -> bool, env: string,
                    f: Pin)
    requires |front| == |before| + 1
    ensures var trace, events := front + [s], before + [e];
            var to := RollbackPin(front[|before|], e, env);
            (exists i: nat :: FrozenSince(trace, events, env, newer, i, f)) <==>
              to == Some(f) ||
              (to.None? && !UpPast(e, env, f, newer) && exists i: nat :: FrozenSince(front, before, env, newer, i, f))
  {
    var trace, events, n := front + [s], before + [e], |before|;
    var to := RollbackPin(front[n], e, env);
    assert trace[n] == front[n] && events[n] == e;
    assert forall k: nat, g: Pin | k < n :: RolledTo(trace, events, env, k, g) <==> RolledTo(front, before, env, k, g);
    assert forall g: Pin :: RolledTo(trace, events, env, n, g) <==> to == Some(g);
    if to == Some(f) {
      assert FrozenSince(trace, events, env, newer, n, f);
    }
    forall i: nat | i < n
      ensures FrozenSince(trace, events, env, newer, i, f) <==>
                FrozenSince(front, before, env, newer, i, f) && !UpPast(e, env, f, newer) && to.None?
    {
      if FrozenSince(trace, events, env, newer, i, f) {
        assert !UpPast(events[n], env, f, newer);
        assert forall g: Pin :: !RolledTo(trace, events, env, n, g);
        forall k | i < k < n ensures !UpPast(before[k], env, f, newer) { assert before[k] == events[k]; }
        forall k: nat, g: Pin | i < k < n ensures !RolledTo(front, before, env, k, g) {
          assert !RolledTo(trace, events, env, k, g);
        }
      }
    }
  }
}
