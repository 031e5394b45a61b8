/** The agent-call handler of internal/server/server.go around the in-flight table: requests with the
    same fingerprint coalesce into one leader and its followers. Callers interleave; each critical
    section, channel operation, counter increment and log append is one step. */
module AgentCalls {
  import opened Inflight

  datatype Caller =
    | Leading(call: nat)                                    // running the turn
    | LeaderReserved(call: nat, id: nat)                    // has a consult id, has not appended yet
    | Publishing(call: nat, out: Out)                       // about to complete
    | Completing(call: nat, out: Out)                       // inside the once guard
    | LeaderDone(call: nat, out: Out)
    | Waiting(call: nat)
    | Received(call: nat, out: Out)
    | ReceivedNothing(call: nat)                            // the result had not been written
    | FollowerReserved(call: nat, out: Out, id: nat)
    | FollowerDone(call: nat, out: Out)
    | Cancelled(call: nat)
  {
    predicate IsLeader() {
      Leading? || LeaderReserved? || Publishing? || Completing? || LeaderDone?
    }
  }

  /** A resolved consult event; followers name their leader's event. */
  datatype Entry = LeaderEntry(id: nat, fingerprint: string)
    | FollowerEntry(id: nat, fingerprint: string, leaderId: nat)

  datatype State = State(table: Table, callers: seq<Caller>, leaders: seq<nat>, counter: nat, log: seq<Entry>)

  datatype Step =
    | Enter(key: string)
    | Fail(a: nat, code: string)        // any error path of the leader
    | Reserve(a: nat)                   // nextConsultEventID
    | Append(a: nat, ok: bool)          // AppendEvent, which may fail
    | Write(a: nat)
    | Close(a: nat)
    | Remove(a: nat)
    | CompleteAgain(a: nat, out: Out)   // a second Complete on the leader's ticket
    | Read(a: nat)
    | Cancel(a: nat)
    | Finish(a: nat)                    // a follower of a failed leader has nothing to record

  const INITIAL := State(Table([], map[]), [], [], 0, [])

  ghost predicate InRange(s: State) {
    && |s.leaders| == |s.table.calls|
    && (forall a | 0 <= a < |s.callers| :: s.callers[a].call < |s.table.calls|)
  }

  predicate At(s: State, a: nat) {
    a < |s.callers| && s.callers[a].call < |s.table.calls|
  }

  predicate Enabled(s: State, step: Step) {
    match step
    case Enter(_) => true
    case Fail(a, _) => At(s, a) && s.callers[a].Leading?
    case Reserve(a) => At(s, a) && (s.callers[a].Leading? || (s.callers[a].Received? && s.callers[a].out.Resolved?))
    case Append(a, _) => At(s, a) && (s.callers[a].LeaderReserved? || s.callers[a].FollowerReserved?)
    case Write(a) => At(s, a) && s.callers[a].Publishing?
    case Close(a) => At(s, a) && s.callers[a].Completing? && s.table.calls[s.callers[a].call].phase.Written?
    case Remove(a) => At(s, a) && s.callers[a].Completing? && s.table.calls[s.callers[a].call].phase.Finished?
    case CompleteAgain(a, _) => At(s, a) && s.callers[a].LeaderDone?
    case Read(a) => At(s, a) && s.callers[a].Waiting?
                    && Closed(s.table.calls[s.callers[a].call])
    case Cancel(a) => At(s, a) && s.callers[a].Waiting?
    case Finish(a) => At(s, a) && s.callers[a].Received? && s.callers[a].out.Failure?
  }

  function Become(s: State, a: nat, c: Caller): State
    requires a < |s.callers|
  {
    s.(callers := s.callers[a := c])
  }

  function Do(s: State, step: Step): State
    requires Enabled(s, step)
  {
    match step
    case Enter(key) =>
      if key in s.table.byKey then s.(callers := s.callers + [Waiting(s.table.byKey[key])])
      else s.(table := EnterKey(s.table, key), callers := s.callers + [Leading(|s.table.calls|)],
              leaders := s.leaders + [|s.callers|])
    case Fail(a, code) => Become(s, a, Publishing(s.callers[a].call, Failure(code)))
    case Reserve(a) =>
      var x := s.callers[a];
      Become(s, a, if x.Leading? then LeaderReserved(x.call, s.counter + 1)
             else FollowerReserved(x.call, x.out, s.counter + 1))
        .(counter := s.counter + 1)
    case Append(a, ok) =>
      var x := s.callers[a];
      if x.LeaderReserved? then
        var key := s.table.calls[x.call].key;
        if ok then Become(s, a, Publishing(x.call, Resolved(x.id, key))).(log := s.log + [LeaderEntry(x.id, key)])
        else Become(s, a, Publishing(x.call, Failure("consult_event_failed")))
      else
        var t := Become(s, a, FollowerDone(x.call, x.out));
        if ok && x.out.Resolved? then t.(log := s.log + [FollowerEntry(x.id, x.out.fingerprint, x.out.consultId)])
          else t
    case Write(a) =>
      var x := s.callers[a];
      Become(s, a, Completing(x.call, x.out)).(table := Complete(s.table, x.call, x.out))
    case Close(a) => s.(table := CloseDone(s.table, s.callers[a].call))
    case Remove(a) =>
      var x := s.callers[a];
      Become(s, a, LeaderDone(x.call, x.out)).(table := Delete(s.table, x.call))
    case CompleteAgain(a, out) => s.(table := Complete(s.table, s.callers[a].call, out))
    case Read(a) =>
      var c := s.callers[a].call;
      var v := s.table.calls[c].value;
      Become(s, a, if v.Published? then Received(c, v.out) else ReceivedNothing(c))
    case Cancel(a) => Become(s, a, Cancelled(s.callers[a].call))
    case Finish(a) => Become(s, a, FollowerDone(s.callers[a].call, s.callers[a].out))
  }

  // ----- What every step keeps -----

  /** Every call has one leader, the caller that made it. */
  ghost predicate OneLeader(s: State) {
    && InRange(s)
    && (forall a | 0 <= a < |s.callers| && s.callers[a].IsLeader() :: s.leaders[s.callers[a].call] == a)
    && (forall c | 0 <= c < |s.leaders| ::
          s.leaders[c] < |s.callers| && s.callers[s.leaders[c]].IsLeader() && s.callers[s.leaders[c]].call == c)
  }

  /** Where a caller stands says where its call stands, and what its call holds. */
  ghost predicate InStep(x: Caller, c: Call) {
    match x
    case Leading(_) => c.phase.Open?
    case LeaderReserved(_, _) => c.phase.Open?
    case Publishing(_, _) => c.phase.Open?
    case Completing(_, out) => (c.phase.Written? || c.phase.Finished?) && c.value == Published(out)
    case LeaderDone(_, out) => c.phase.Released? && c.value == Published(out)
    case Waiting(_) => true
    case Received(_, out) => Closed(c) && c.value == Published(out)
    case ReceivedNothing(_) => false
    case FollowerReserved(_, out, _) => Closed(c) && c.value == Published(out) && out.Resolved?
    case FollowerDone(_, out) => Closed(c) && c.value == Published(out)
    case Cancelled(_) => true
  }

  ghost predicate AllInStep(s: State)
    requires InRange(s)
  {
    forall a | 0 <= a < |s.callers| :: InStep(s.callers[a], s.table.calls[s.callers[a].call])
  }

  lemma {:induction false} StepKeepsTable(s: State, step: Step)
    requires Enabled(s, step) && Coherent(s.table) && OneLeader(s) && AllInStep(s)
    ensures Coherent(Do(s, step).table)
  {
    hide Coherent;
    match step {
      case Enter(key) => CoherentEnter(s.table, key);
      case Write(a) => CoherentComplete(s.table, s.callers[a].call, s.callers[a].out);
      case Close(a) => CoherentClose(s.table, s.callers[a].call);
      case Remove(a) => CoherentDelete(s.table, s.callers[a].call);
      case CompleteAgain(a, out) => CoherentComplete(s.table, s.callers[a].call, out);
      case _ =>
    }
  }

  function Actor(step: Step): nat
    requires !step.Enter?
  {
    step.a
  }

  /** A step other than Enter concerns one caller and its call. */
  lemma StepIsLocal(s: State, step: Step)
    requires Enabled(s, step) && !step.Enter?
    ensures var (t, a) := (Do(s, step), Actor(step)); var c := s.callers[a].call;
      && t.callers == s.callers[a := t.callers[a]] && t.leaders == s.leaders
      && t.callers[a].call == c && t.callers[a].IsLeader() == s.callers[a].IsLeader()
      && t.table.calls == s.table.calls[c := t.table.calls[c]]
  {
  }

  lemma {:induction false} StepKeepsLeaders(s: State, step: Step)
    requires Enabled(s, step) && OneLeader(s) && Coherent(s.table)
    ensures OneLeader(Do(s, step))
  {
    if step.Enter? {
      EnterKeepsLeaders(s, step.key);
    } else {
      StepIsLocal(s, step);
      hide Do, Enabled, Coherent;
      var (t, a) := (Do(s, step), Actor(step));
      assert forall b | 0 <= b < |t.callers| :: t.callers[b].call == s.callers[b].call;
      assert forall b | 0 <= b < |t.callers| :: t.callers[b].IsLeader() == s.callers[b].IsLeader();
    }
  }

  lemma {:induction false} EnterKeepsLeaders(s: State, key: string)
    requires OneLeader(s) && Coherent(s.table)
    ensures OneLeader(Do(s, Enter(key)))
  {
    var t := Do(s, Enter(key));
    if key in s.table.byKey {
      hide Coherent;
      assert t.leaders == s.leaders;
      forall b | 0 <= b < |t.callers|
        ensures t.callers[b].call < |t.table.calls| && (t.callers[b].IsLeader() ==> t.leaders[t.callers[b].call] == b)
      {
        if b < |s.callers| {
          assert t.callers[b] == s.callers[b];
        }
      }
    } else {
      hide Coherent;
      forall b | 0 <= b < |t.callers|
        ensures t.callers[b].call < |t.table.calls| && (t.callers[b].IsLeader() ==> t.leaders[t.callers[b].call] == b)
      {
        if b < |s.callers| {
          assert t.callers[b] == s.callers[b];
        }
      }
      forall c | 0 <= c < |t.leaders|
        ensures t.leaders[c] < |t.callers| && t.callers[t.leaders[c]].IsLeader() && t.callers[t.leaders[c]].call == c
      {
        if c < |s.leaders| {
          assert t.leaders[c] == s.leaders[c];
          assert t.callers[s.leaders[c]] == s.callers[s.leaders[c]];
        }
      }
    }
  }

  /** A call only moves on: a published value stays, a closed channel stays closed. */
  ghost predicate Advances(c: Call, d: Call) {
    && d.key == c.key
    && (c.value.Published? ==> d.value == c.value)
    && (Closed(c) ==> Closed(d))
  }

  lemma {:induction false} StepAdvances(s: State, step: Step, c: nat)
    requires Enabled(s, step) && Coherent(s.table) && InRange(s) && AllInStep(s) && c < |s.table.calls|
    ensures c < |Do(s, step).table.calls| && Advances(s.table.calls[c], Do(s, step).table.calls[c])
  {
    if !step.Enter? {
      var x := s.callers[Actor(step)];
      assert InStep(x, s.table.calls[x.call]);
    }
  }

  lemma FollowerStays(x: Caller, c: Call, d: Call)
    requires !x.IsLeader() && InStep(x, c) && Advances(c, d)
    ensures InStep(x, d)
  {
  }

  lemma {:induction false} ActorInStep(s: State, step: Step)
    requires Enabled(s, step) && !step.Enter? && Coherent(s.table) && InRange(s) && AllInStep(s)
    ensures var (t, a) := (Do(s, step), Actor(step));
      InStep(t.callers[a], t.table.calls[s.callers[a].call])
  {
    var x := s.callers[Actor(step)];
    assert InStep(x, s.table.calls[x.call]);
  }

  lemma {:induction false} StepKeepsInStep(s: State, step: Step)
    requires Enabled(s, step) && Coherent(s.table) && OneLeader(s) && AllInStep(s)
    ensures InRange(Do(s, step)) && AllInStep(Do(s, step))
  {
    StepKeepsLeaders(s, step);
    if step.Enter? {
      EnterKeepsInStep(s, step.key);
    } else {
      OthersInStep(s, step);
    }
  }

  lemma {:induction false} EnterKeepsInStep(s: State, key: string)
    requires InRange(s) && AllInStep(s) && InRange(Do(s, Enter(key)))
    ensures AllInStep(Do(s, Enter(key)))
  {
    hide InStep;
    var t := Do(s, Enter(key));
    forall b | 0 <= b < |t.callers|
      ensures InStep(t.callers[b], t.table.calls[t.callers[b].call])
    {
      if b < |s.callers| {
        assert t.callers[b] == s.callers[b];
      } else {
        NewcomerInStep(t.callers[b], t.table.calls[t.callers[b].call]);
      }
    }
  }

  lemma NewcomerInStep(x: Caller, c: Call)
    requires x.Waiting? || (x.Leading? && c.phase.Open?)
    ensures InStep(x, c)
  {
  }

  lemma {:induction false} OthersInStep(s: State, step: Step)
    requires Enabled(s, step) && !step.Enter? && Coherent(s.table) && OneLeader(s) && AllInStep(s)
    requires InRange(Do(s, step))
    ensures AllInStep(Do(s, step))
  {
    var (t, a) := (Do(s, step), Actor(step));
    var c := s.callers[a].call;
    StepIsLocal(s, step);
    ActorInStep(s, step);
    StepAdvances(s, step, c);
    FollowersMoveNothing(s, step);
    hide Do, Enabled, Coherent, InStep, Advances;
    forall b | 0 <= b < |t.callers|
      ensures InStep(t.callers[b], t.table.calls[t.callers[b].call])
    {
      if b != a {
        var x := s.callers[b];
        assert InStep(x, s.table.calls[x.call]);
        if x.call == c && s.callers[a].IsLeader() {
          FollowerStays(x, s.table.calls[c], t.table.calls[c]);
        }
      }
    }
  }

  lemma FollowersMoveNothing(s: State, step: Step)
    requires Enabled(s, step) && !step.Enter?
    ensures s.callers[Actor(step)].IsLeader() || Do(s, step).table == s.table
  {
  }

  // ----- The consult events -----

  /** A resolved result names a leader event that is on the log, under the key of its call. */
  predicate Explained(log: seq<Entry>, key: string, out: Out) {
    out.Resolved? ==> out.fingerprint == key && LeaderEntry(out.consultId, key) in log
  }

  ghost predicate AllExplained(s: State)
    requires InRange(s)
  {
    && (forall c | 0 <= c < |s.table.calls| && s.table.calls[c].value.Published? ::
          Explained(s.log, s.table.calls[c].key, s.table.calls[c].value.out))
    && (forall a | 0 <= a < |s.callers| && s.callers[a].Publishing? ::
          Explained(s.log, s.table.calls[s.callers[a].call].key, s.callers[a].out))
    && (forall i | 0 <= i < |s.log| && s.log[i].FollowerEntry? ::
          LeaderEntry(s.log[i].leaderId, s.log[i].fingerprint) in s.log[..i])
  }

  lemma ExplainedStays(log: seq<Entry>, more: seq<Entry>, key: string, out: Out)
    requires Explained(log, key, out)
    ensures Explained(log + more, key, out)
  {
  }

  /** What a step adds to the log. */
  function Added(s: State, step: Step): seq<Entry>
    requires Enabled(s, step)
  {
    Do(s, step).log[|s.log|..]
  }

  lemma LogGrows(s: State, step: Step)
    requires Enabled(s, step)
    ensures Do(s, step).log == s.log + Added(s, step) && |Added(s, step)| <= 1
  {
  }

  lemma {:induction false} ActorExplained(s: State, step: Step)
    requires Enabled(s, step) && !step.Enter? && InRange(s) && AllInStep(s) && AllExplained(s)
    ensures var (t, a) := (Do(s, step), Actor(step)); var c := s.callers[a].call;
      && (t.table.calls[c].value.Published? ==> Explained(t.log, t.table.calls[c].key, t.table.calls[c].value.out))
      && (t.callers[a].Publishing? ==> Explained(t.log, t.table.calls[c].key, t.callers[a].out))
  {
    var x := s.callers[Actor(step)];
    assert InStep(x, s.table.calls[x.call]);
    LogGrows(s, step);
  }

  lemma {:induction false} AddedExplained(s: State, step: Step)
    requires Enabled(s, step) && InRange(s) && AllInStep(s) && AllExplained(s)
    ensures forall e | e in Added(s, step) && e.FollowerEntry? :: LeaderEntry(e.leaderId, e.fingerprint) in s.log
  {
    if step.Append? {
      var x := s.callers[step.a];
      assert InStep(x, s.table.calls[x.call]);
    }
  }

  lemma {:induction false} StepKeepsExplained(s: State, step: Step)
    requires Enabled(s, step) && Coherent(s.table) && OneLeader(s) && AllInStep(s) && AllExplained(s)
    requires InRange(Do(s, step))
    ensures AllExplained(Do(s, step))
  {
    var t := Do(s, step);
    LogGrows(s, step);
    AddedExplained(s, step);
    forall i | 0 <= i < |t.log| && t.log[i].FollowerEntry?
      ensures LeaderEntry(t.log[i].leaderId, t.log[i].fingerprint) in t.log[..i]
    {
      if i < |s.log| {
        assert t.log[..i] == s.log[..i];
      } else {
        assert t.log[i] in Added(s, step);
        assert t.log[..i] == s.log;
      }
    }
    if step.Enter? {
      EnterKeepsExplained(s, step.key);
    } else {
      StepIsLocal(s, step);
      ActorExplained(s, step);
      hide Do, Enabled, Coherent, InStep, Explained;
      var a := Actor(step);
      var c := s.callers[a].call;
      forall d | 0 <= d < |t.table.calls| && t.table.calls[d].value.Published?
        ensures Explained(t.log, t.table.calls[d].key, t.table.calls[d].value.out)
      {
        if d != c {
          ExplainedStays(s.log, Added(s, step), s.table.calls[d].key, s.table.calls[d].value.out);
        }
      }
      forall b | 0 <= b < |t.callers| && t.callers[b].Publishing?
        ensures Explained(t.log, t.table.calls[t.callers[b].call].key, t.callers[b].out)
      {
        if b != a {
          var x := s.callers[b];
          ExplainedStays(s.log, Added(s, step), s.table.calls[x.call].key, x.out);
          KeyStays(s, step, x.call);
        }
      }
    }
  }

  lemma KeyStays(s: State, step: Step, c: nat)
    requires Enabled(s, step) && c < |s.table.calls|
    ensures c < |Do(s, step).table.calls| && Do(s, step).table.calls[c].key == s.table.calls[c].key
  {
  }

  lemma {:induction false} EnterKeepsExplained(s: State, key: string)
    requires InRange(s) && AllExplained(s)
    requires InRange(Do(s, Enter(key)))
    ensures var t := Do(s, Enter(key));
      && (forall c | 0 <= c < |t.table.calls| && t.table.calls[c].value.Published? ::
            Explained(t.log, t.table.calls[c].key, t.table.calls[c].value.out))
      && (forall a | 0 <= a < |t.callers| && t.callers[a].Publishing? ::
            Explained(t.log, t.table.calls[t.callers[a].call].key, t.callers[a].out))
  {
    hide Explained;
    var t := Do(s, Enter(key));
    forall a | 0 <= a < |t.callers| && t.callers[a].Publishing?
      ensures Explained(t.log, t.table.calls[t.callers[a].call].key, t.callers[a].out)
    {
      assert a < |s.callers| && t.callers[a] == s.callers[a];
    }
  }

  // ----- Consult ids -----

  predicate HoldsId(x: Caller) {
    x.LeaderReserved? || x.FollowerReserved?
  }

  ghost predicate IdsUnique(s: State) {
    && (forall i | 0 <= i < |s.log| :: 1 <= s.log[i].id <= s.counter)
    && (forall i, j | 0 <= i < j < |s.log| :: s.log[i].id != s.log[j].id)
    && (forall a | 0 <= a < |s.callers| && HoldsId(s.callers[a]) :: 1 <= s.callers[a].id <= s.counter)
    && (forall a, i | 0 <= a < |s.callers| && HoldsId(s.callers[a]) && 0 <= i < |s.log| ::
        s.callers[a].id != s.log[i].id)
    && (forall a, b | 0 <= a < b < |s.callers| && HoldsId(s.callers[a]) && HoldsId(s.callers[b]) ::
          s.callers[a].id != s.callers[b].id)
  }

  lemma {:induction false} StepKeepsIds(s: State, step: Step)
    requires Enabled(s, step) && IdsUnique(s)
    ensures IdsUnique(Do(s, step))
  {
    var t := Do(s, step);
    if step.Enter? {
      hide IdsUnique;
      NewcomerKeepsIds(s, t);
    } else if step.Append? {
      hide IdsUnique;
      AppendKeepsIds(s, step.a, step.ok);
    } else {
      StepIsLocal(s, step);
      IdsOf(s, step);
      hide Do, Enabled;
    }
  }

  lemma {:induction false} NewcomerKeepsIds(s: State, t: State)
    requires IdsUnique(s) && t.log == s.log && t.counter == s.counter && |t.callers| == |s.callers| + 1
    requires t.callers[..|s.callers|] == s.callers && !HoldsId(t.callers[|s.callers|])
    ensures IdsUnique(t)
  {
    assert forall a | 0 <= a < |s.callers| :: t.callers[a] == t.callers[..|s.callers|][a];
  }

  lemma IdsOf(s: State, step: Step)
    requires Enabled(s, step) && !step.Enter? && !step.Append?
    ensures var (t, a) := (Do(s, step), Actor(step));
      && t.log == s.log
      && (if step.Reserve? then t.counter == s.counter + 1 && HoldsId(t.callers[a]) && t.callers[a].id == t.counter
          else t.counter == s.counter && (HoldsId(t.callers[a]) ==> t.callers[a] == s.callers[a]))
  {
  }

  lemma {:induction false} AppendKeepsIds(s: State, a: nat, ok: bool)
    requires Enabled(s, Append(a, ok)) && IdsUnique(s)
    ensures IdsUnique(Do(s, Append(a, ok)))
  {
    var t := Do(s, Append(a, ok));
    LogGrows(s, Append(a, ok));
    assert forall e | e in Added(s, Append(a, ok)) :: e.id == s.callers[a].id;
    assert !HoldsId(t.callers[a]) && t.callers == s.callers[a := t.callers[a]] && t.counter == s.counter;
    hide Do, Enabled;
  }

  // ----- Runs -----

  ghost predicate Inv(s: State) {
    Coherent(s.table) && OneLeader(s) && AllInStep(s) && AllExplained(s) && IdsUnique(s)
  }

  lemma {:induction false} StepKeepsInv(s: State, step: Step)
    requires Enabled(s, step) && Inv(s)
    ensures Inv(Do(s, step))
  {
    hide Enabled, Do, Coherent, AllInStep, AllExplained, IdsUnique;
    StepKeepsTable(s, step);
    StepKeepsLeaders(s, step);
    StepKeepsInStep(s, step);
    StepKeepsExplained(s, step);
    StepKeepsIds(s, step);
  }

  predicate Feasible(steps: seq<Step>)
    decreases |steps|, 0
  {
    if steps == [] then true
    else
      var init, last := steps[..|steps| - 1], steps[|steps| - 1];
      Feasible(init) && Enabled(After(init), last)
  }

  function After(steps: seq<Step>): State
    requires Feasible(steps)
    decreases |steps|, 1
  {
    if steps == [] then INITIAL else Do(After(steps[..|steps| - 1]), steps[|steps| - 1])
  }

  /** The invariant holds in every interleaving. */
  lemma {:induction false} RunsKeepInv(steps: seq<Step>)
    requires Feasible(steps)
    ensures Inv(After(steps))
  {
    if steps == [] {
      hide Feasible;
    } else {
      hide Enabled, Do, Inv;
      var init := steps[..|steps| - 1];
      RunsKeepInv(init);
      StepKeepsInv(After(init), steps[|steps| - 1]);
    }
  }

  predicate Unfinished(x: Caller) {
    x.IsLeader() && !x.LeaderDone?
  }

  /** At most one unfinished leader per key, and the key finds its call. */
  lemma {:induction false} OneLeaderPerKey(steps: seq<Step>, a: nat, b: nat)
    requires Feasible(steps)
    requires a < |After(steps).callers| && Unfinished(After(steps).callers[a])
    requires b < |After(steps).callers| && Unfinished(After(steps).callers[b])
    ensures var s := After(steps); var (c, d) := (s.callers[a].call, s.callers[b].call);
      && c < |s.table.calls| && d < |s.table.calls|
      && (s.table.calls[c].key == s.table.calls[d].key ==> a == b)
      && s.table.calls[c].key in s.table.byKey && s.table.byKey[s.table.calls[c].key] == c
  {
    RunsKeepInv(steps);
    var s := After(steps);
    hide Feasible, After, AllExplained, IdsUnique;
    assert InStep(s.callers[a], s.table.calls[s.callers[a].call]);
    assert InStep(s.callers[b], s.table.calls[s.callers[b].call]);
  }

  lemma {:induction false} RemovalIsLocal(s: State, a: nat)
    requires Inv(s) && Enabled(s, Remove(a))
    ensures var c := s.callers[a].call;
      && s.table.calls[c].key in s.table.byKey && s.table.byKey[s.table.calls[c].key] == c
      && forall k | k in s.table.byKey && k != s.table.calls[c].key ::
           k in Do(s, Remove(a)).table.byKey && Do(s, Remove(a)).table.byKey[k] == s.table.byKey[k]
  {
    hide OneLeader, AllInStep, AllExplained, IdsUnique;
  }

  /** The entry that a leader deletes is its own, although delete only knows the key. */
  lemma {:induction false} RemovesItsOwn(steps: seq<Step>, a: nat)
    requires Feasible(steps) && Enabled(After(steps), Remove(a))
    ensures var s := After(steps); var c := s.callers[a].call;
      && s.table.calls[c].key in s.table.byKey && s.table.byKey[s.table.calls[c].key] == c
      && forall k | k in s.table.byKey && k != s.table.calls[c].key ::
           k in Do(s, Remove(a)).table.byKey && Do(s, Remove(a)).table.byKey[k] == s.table.byKey[k]
  {
    RunsKeepInv(steps);
    hide *;
    RemovalIsLocal(After(steps), a);
  }

  /** Only the first completion counts: what a call holds never changes afterwards. */
  lemma {:induction false} PublishedForever(steps: seq<Step>, more: seq<Step>, c: nat)
    requires Feasible(steps + more) && Feasible(steps)
    requires c < |After(steps).table.calls| && After(steps).table.calls[c].value.Published?
    ensures c < |After(steps + more).table.calls|
    ensures After(steps + more).table.calls[c].value == After(steps).table.calls[c].value
    ensures Closed(After(steps).table.calls[c]) ==> Closed(After(steps + more).table.calls[c])
    decreases |more|
  {
    if more == [] {
      assert steps + more == steps;
    } else {
      var init := more[..|more| - 1];
      assert (steps + more)[..|steps + more| - 1] == steps + init;
      PublishedForever(steps, init, c);
      RunsKeepInv(steps + init);
      hide Do, Enabled, Coherent, OneLeader, AllInStep, AllExplained, IdsUnique;
      StepAdvances(After(steps + init), more[|more| - 1], c);
    }
  }

  /** A follower never reads too early, and what it reads is what the leader of its call published. */
  lemma {:induction false} FollowersReadTheirLeader(steps: seq<Step>, a: nat)
    requires Feasible(steps) && a < |After(steps).callers|
    ensures !After(steps).callers[a].ReceivedNothing?
    ensures var s := After(steps); var x := s.callers[a];
      x.Received? || x.FollowerReserved? || x.FollowerDone? ==>
        && x.call < |s.leaders| && s.leaders[x.call] < |s.callers|
        && var l := s.callers[s.leaders[x.call]];
           (l.Completing? || l.LeaderDone?) && l.call == x.call && l.out == x.out
  {
    RunsKeepInv(steps);
    var s := After(steps);
    hide Feasible, After, AllExplained, IdsUnique, Coherent;
    var x := s.callers[a];
    assert InStep(x, s.table.calls[x.call]);
    assert InStep(s.callers[s.leaders[x.call]], s.table.calls[x.call]);
  }

  /** A follower's consult event names a leader's event, of the same fingerprint, that is already
      on the log before it; and no two consult events share an id. */
  lemma {:induction false} FollowerEventsNameLeaders(steps: seq<Step>, i: nat)
    requires Feasible(steps) && i < |After(steps).log|
    ensures var log := After(steps).log;
      && (log[i].FollowerEntry? ==> LeaderEntry(log[i].leaderId, log[i].fingerprint) in log[..i])
      && forall j | 0 <= j < |log| && log[j].id == log[i].id :: j == i
  {
    RunsKeepInv(steps);
    hide Feasible, After, Coherent, OneLeader, AllInStep;
  }

  /** How often the backend took a consult event in a run. */
  function Appends(steps: seq<Step>): nat {
    if steps == [] then 0
    else Appends(steps[..|steps| - 1]) + (if steps[|steps| - 1].Append? && steps[|steps| - 1].ok then 1 else 0)
  }

  /** Every successful append of a reserved consult event, a leader's or a follower's, puts one entry on
      the log, and nothing else does. */
  lemma {:induction false} EveryAppendIsLogged(steps: seq<Step>)
    requires Feasible(steps)
    ensures |After(steps).log| == Appends(steps)
  {
    if steps != [] {
      hide Enabled, Do, Inv;
      var (init, last) := (steps[..|steps| - 1], steps[|steps| - 1]);
      EveryAppendIsLogged(init);
      RunsKeepInv(init);
      OneEntryPerAppend(After(init), last);
    }
  }

  lemma {:induction false} OneEntryPerAppend(s: State, step: Step)
    requires Enabled(s, step) && Inv(s)
    ensures |Do(s, step).log| == |s.log| + (if step.Append? && step.ok then 1 else 0)
  {
    hide Coherent, OneLeader, AllExplained, IdsUnique;
    if step.Append? {
      var x := s.callers[step.a];
      assert InStep(x, s.table.calls[x.call]);
    }
  }

  /** What a leader's append puts on the log: its reserved id under the fingerprint of its call, which is
      also what it goes on to publish. */
  lemma {:induction false} LeaderIsLogged(steps: seq<Step>, a: nat)
    requires Feasible(steps) && a < |After(steps).callers| && After(steps).callers[a].LeaderReserved?
    requires After(steps).callers[a].call < |After(steps).table.calls|
    ensures var s := After(steps); var (x, key) := (s.callers[a], s.table.calls[s.callers[a].call].key);
      && Feasible(steps + [Append(a, true)])
      && After(steps + [Append(a, true)]).log == s.log + [LeaderEntry(x.id, key)]
      && After(steps + [Append(a, true)]).callers == s.callers[a := Publishing(x.call, Resolved(x.id, key))]
  {
    var s := After(steps);
    assert Enabled(s, Append(a, true));
    Extend(steps, Append(a, true));
    hide Feasible, After;
  }

  /** What a follower's append puts on the log: its reserved id, and the fingerprint and the consult id
      that the leader of its call has published and the follower has read. */
  lemma {:induction false} FollowerIsLogged(steps: seq<Step>, a: nat)
    requires Feasible(steps) && a < |After(steps).callers| && After(steps).callers[a].FollowerReserved?
    ensures var s := After(steps); var x := s.callers[a];
      && x.call < |s.table.calls| && s.table.calls[x.call].value == Published(x.out) && x.out.Resolved?
      && x.out.fingerprint == s.table.calls[x.call].key && LeaderEntry(x.out.consultId, x.out.fingerprint) in s.log
      && Feasible(steps + [Append(a, true)])
      && After(steps + [Append(a, true)]).log
         == s.log + [FollowerEntry(x.id, s.table.calls[x.call].key, x.out.consultId)]
  {
    RunsKeepInv(steps);
    FollowerIsReady(After(steps), a);
    Extend(steps, Append(a, true));
    hide Feasible, After, Inv;
  }

  lemma {:induction false} FollowerIsReady(s: State, a: nat)
    requires Inv(s) && a < |s.callers| && s.callers[a].FollowerReserved?
    ensures var x := s.callers[a];
      && Enabled(s, Append(a, true)) && x.call < |s.table.calls| && x.out.Resolved?
      && s.table.calls[x.call].value == Published(x.out) && x.out.fingerprint == s.table.calls[x.call].key
      && LeaderEntry(x.out.consultId, x.out.fingerprint) in s.log
  {
    assert InRange(s);
    hide Coherent, OneLeader, IdsUnique;
    var x := s.callers[a];
    assert InStep(x, s.table.calls[x.call]);
    assert Explained(s.log, s.table.calls[x.call].key, s.table.calls[x.call].value.out);
  }

  /** A leader whose consult event is refused publishes that failure, and the log stays. */
  lemma {:induction false} RefusedLeader(steps: seq<Step>, a: nat)
    requires Feasible(steps) && a < |After(steps).callers| && After(steps).callers[a].LeaderReserved?
    requires After(steps).callers[a].call < |After(steps).table.calls|
    ensures var s := After(steps); var x := s.callers[a];
      && Feasible(steps + [Append(a, false)])
      && After(steps + [Append(a, false)])
         == s.(callers := s.callers[a := Publishing(x.call, Failure("consult_event_failed"))])
  {
    var s := After(steps);
    assert Enabled(s, Append(a, false));
    Extend(steps, Append(a, false));
    hide Feasible, After;
  }

  /** No follower of a resolved call is done before it has tried to append its own consult event. */
  lemma {:induction false} ResolvedFollowersAppend(steps: seq<Step>, a: nat)
    requires Feasible(steps) && a < |After(steps).callers|
    requires After(steps).callers[a].FollowerDone? && After(steps).callers[a].out.Resolved?
    ensures Append(a, true) in steps || Append(a, false) in steps
  {
    var (init, last) := (steps[..|steps| - 1], steps[|steps| - 1]);
    var (s, t) := (After(init), After(steps));
    assert last in steps && forall x | x in init :: x in steps;
    if a < |s.callers| && s.callers[a] == t.callers[a] {
      ResolvedFollowersAppend(init, a);
    } else {
      hide Feasible, After;
      DoneByAppend(s, last, a);
    }
  }

  lemma DoneByAppend(s: State, step: Step, a: nat)
    requires Enabled(s, step) && a < |Do(s, step).callers|
    requires a < |s.callers| ==> Do(s, step).callers[a] != s.callers[a]
    requires Do(s, step).callers[a].FollowerDone? && Do(s, step).callers[a].out.Resolved?
    ensures step == Append(a, true) || step == Append(a, false)
  {
  }

  function Reservations(steps: seq<Step>): nat {
    if steps == [] then 0
    else Reservations(steps[..|steps| - 1]) + (if steps[|steps| - 1].Reserve? then 1 else 0)
  }

  /** The id counter has counted the reservations, so ids are handed out from 1 without gaps. */
  lemma {:induction false} IdsCountReservations(steps: seq<Step>)
    requires Feasible(steps)
    ensures After(steps).counter == Reservations(steps)
  {
    if steps != [] {
      IdsCountReservations(steps[..|steps| - 1]);
    }
  }

  /** A caller waits for, or leads, a call under the key it asked for. */
  lemma {:induction false} EnterFindsItsKey(steps: seq<Step>, key: string)
    requires Feasible(steps)
    ensures var t := Do(After(steps), Enter(key)); var x := t.callers[|t.callers| - 1];
      && x.call < |t.table.calls| && t.table.calls[x.call].key == key
      && (x.Leading? <==> key !in After(steps).table.byKey)
  {
    RunsKeepInv(steps);
    hide Feasible, After, OneLeader, AllInStep, AllExplained, IdsUnique;
  }

  // ----- Nobody is stuck -----

  function LeaderRank(s: State, x: Caller): nat
    requires x.call < |s.table.calls|
  {
    match x
    case Leading(_) => 5
    case LeaderReserved(_, _) => 4
    case Publishing(_, _) => 3
    case Completing(c, _) => if s.table.calls[c].phase.Written? then 2 else 1
    case _ => 0
  }

  /** A leader that has not finished can always go on, whatever the others do, and every step of its
      own brings it nearer to having released its followers. */
  lemma {:induction false} LeaderGoesOn(steps: seq<Step>, a: nat) returns (step: Step)
    requires Feasible(steps) && a < |After(steps).callers| && Unfinished(After(steps).callers[a])
    ensures !step.Enter? && Actor(step) == a && Enabled(After(steps), step)
    ensures var s := After(steps);
      && s.callers[a].call < |s.table.calls|
      && forall t: Step | !t.Enter? && Actor(t) == a && Enabled(s, t) ::
           && s.callers[a].call < |Do(s, t).table.calls| && Do(s, t).callers[a].call == s.callers[a].call
           && LeaderRank(Do(s, t), Do(s, t).callers[a]) < LeaderRank(s, s.callers[a])
  {
    RunsKeepInv(steps);
    var s := After(steps);
    hide Feasible, After, AllExplained, IdsUnique, Coherent;
    var x := s.callers[a];
    assert InStep(x, s.table.calls[x.call]);
    step := match x
      case Leading(_) => Reserve(a)
      case LeaderReserved(_, _) => Append(a, true)
      case Publishing(_, _) => Write(a)
      case Completing(_, _) => if s.table.calls[x.call].phase.Written? then Close(a) else Remove(a)
      case _ => Reserve(a);
    forall t: Step | !t.Enter? && Actor(t) == a && Enabled(s, t)
      ensures && x.call < |Do(s, t).table.calls| && Do(s, t).callers[a].call == x.call
              && LeaderRank(Do(s, t), Do(s, t).callers[a]) < LeaderRank(s, x)
    {
      OwnStepNearer(s, t, a);
    }
  }

  lemma OwnStepNearer(s: State, t: Step, a: nat)
    requires InRange(s) && a < |s.callers| && Unfinished(s.callers[a])
    requires InStep(s.callers[a], s.table.calls[s.callers[a].call])
    requires !t.Enter? && Actor(t) == a && Enabled(s, t)
    ensures s.callers[a].call < |Do(s, t).table.calls| && Do(s, t).callers[a].call == s.callers[a].call
    ensures LeaderRank(Do(s, t), Do(s, t).callers[a]) < LeaderRank(s, s.callers[a])
  {
  }

  /** Once its leader has finished a waiting follower can read. */
  lemma {:induction false} FollowersAreReleased(steps: seq<Step>, a: nat)
    requires Feasible(steps) && a < |After(steps).callers| && After(steps).callers[a].Waiting?
    ensures var s := After(steps);
      && s.callers[a].call < |s.leaders| && s.leaders[s.callers[a].call] < |s.callers|
      && (s.callers[s.leaders[s.callers[a].call]].LeaderDone? ==> Enabled(s, Read(a)))
  {
    RunsKeepInv(steps);
    var s := After(steps);
    hide Feasible, After, AllExplained, IdsUnique, Coherent;
    var c := s.callers[a].call;
    assert InStep(s.callers[s.leaders[c]], s.table.calls[c]);
  }

  lemma {:induction false} Extend(steps: seq<Step>, step: Step)
    requires Feasible(steps) && Enabled(After(steps), step)
    ensures Feasible(steps + [step]) && After(steps + [step]) == Do(After(steps), step)
  {
    hide Enabled, Do;
    assert (steps + [step])[..|steps|] == steps;
  }

  /** The window between closing the channel and deleting the entry: a caller can join a call that
      has already finished, and then reads its result at once. */
  lemma {:induction false} LateJoinIsReachable(key: string, code: string) returns (steps: seq<Step>)
    ensures Feasible(steps) && |After(steps).callers| == 2
    ensures After(steps).callers[1].Waiting? && After(steps).callers[1].call < |After(steps).table.calls|
    ensures After(steps).table.calls[After(steps).callers[1].call].phase.Finished?
    ensures Enabled(After(steps), Read(1))
  {
    steps := [];
    assert After([]) == INITIAL;
    hide Feasible, After;
    Extend(steps, Enter(key));
    steps := steps + [Enter(key)];
    Extend(steps, Fail(0, code));
    steps := steps + [Fail(0, code)];
    Extend(steps, Write(0));
    steps := steps + [Write(0)];
    Extend(steps, Close(0));
    steps := steps + [Close(0)];
    Extend(steps, Enter(key));
    steps := steps + [Enter(key)];
  }
}
