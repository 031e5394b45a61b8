/** internal/ingress/inflight.go: the table of calls in flight, by request fingerprint, and the
    objects behind it. */
module Inflight {

  /** What the leader of a call publishes: a resolved response with the id of its consult event, or
      an error. */
  datatype Out = Resolved(consultId: nat, fingerprint: string) | Failure(code: string)

  datatype Value = NoValue | Published(out: Out)

  /** `done` is closed between Written and Finished; Released calls are no longer in the table. */
  datatype Phase = Open | Written | Finished | Released

  datatype Call = Call(key: string, value: Value, phase: Phase)

  /** The done channel is closed. */
  predicate Closed(c: Call) {
    c.phase.Finished? || c.phase.Released?
  }

  // ----- The table of calls -----

  /** All calls ever made, and the one that each key finds. */
  datatype Table = Table(calls: seq<Call>, byKey: map<string, nat>)

  /** The map holds exactly the calls that are not released, under their own keys. */
  ghost predicate Coherent(t: Table) {
    && (forall k | k in t.byKey ::
          t.byKey[k] < |t.calls| && t.calls[t.byKey[k]].key == k && !t.calls[t.byKey[k]].phase.Released?)
    && (forall c | 0 <= c < |t.calls| && !t.calls[c].phase.Released? ::
          t.calls[c].key in t.byKey && t.byKey[t.calls[c].key] == c)
    && (forall c | 0 <= c < |t.calls| :: t.calls[c].phase.Open? <==> t.calls[c].value.NoValue?)
  }

  /** The caller becomes the follower of the call it finds, or the leader of a new one. */
  function EnterKey(t: Table, key: string): Table {
    if key in t.byKey then t
    else Table(t.calls + [Call(key, NoValue, Open)], t.byKey[key := |t.calls|])
  }

  /** The once guard: only the first completion of a call writes. */
  function Complete(t: Table, c: nat, out: Out): Table
    requires c < |t.calls|
  {
    if t.calls[c].phase.Open? then t.(calls := t.calls[c := t.calls[c].(value := Published(out), phase := Written)])
      else t
  }

  function CloseDone(t: Table, c: nat): Table
    requires c < |t.calls|
  {
    t.(calls := t.calls[c := t.calls[c].(phase := Finished)])
  }

  /** delete(i.calls, key): whatever the key finds is removed. */
  function Delete(t: Table, c: nat): Table
    requires c < |t.calls|
  {
    Table(t.calls[c := t.calls[c].(phase := Released)], t.byKey - {t.calls[c].key})
  }

  // ----- What every operation keeps -----

  lemma CoherentComplete(t: Table, c: nat, out: Out)
    requires Coherent(t) && c < |t.calls|
    ensures Coherent(Complete(t, c, out))
  {
  }

  lemma CoherentClose(t: Table, c: nat)
    requires Coherent(t) && c < |t.calls| && t.calls[c].phase.Written?
    ensures Coherent(CloseDone(t, c))
  {
  }

  /** Removing an unreleased call removes that call's entry and no other. */
  lemma CoherentDelete(t: Table, c: nat)
    requires Coherent(t) && c < |t.calls| && t.calls[c].phase.Finished?
    ensures t.calls[c].key in t.byKey && t.byKey[t.calls[c].key] == c
    ensures Coherent(Delete(t, c))
  {
  }

  lemma {:induction false} CoherentEnter(t: Table, key: string)
    requires Coherent(t)
    ensures Coherent(EnterKey(t, key))
  {
    if key !in t.byKey {
      var u := EnterKey(t, key);
      forall c | 0 <= c < |u.calls|
        ensures !u.calls[c].phase.Released? ==> u.calls[c].key in u.byKey && u.byKey[u.calls[c].key] == c
      {
        if c < |t.calls| {
          assert u.calls[c] == t.calls[c];
        }
      }
    }
  }

  // ----- The objects -----

  class CallObject {
    const key: string
    ghost const index: nat
    var value: Value
    var begun: bool            // the once guard
    var done: bool             // the channel is closed
    ghost var released: bool

    constructor (key: string, ghost index: nat)
      ensures this.key == key && this.index == index
      ensures value == NoValue && !begun && !done && !released
    {
      this.key, this.index := key, index;
      value, begun, done, released := NoValue, false, false, false;
    }

    ghost function Model(): Call
      reads this
    {
      Call(key, value, if !begun then Open else if !done then Written else if !released then Finished else Released)
    }
  }

  class Coalescer {
    var calls: map<string, CallObject>
    ghost var arena: seq<CallObject>   // every call ever made

    ghost function Model(): Table
      reads this, arena, calls.Values
    {
      Table(seq(|arena|, i requires 0 <= i < |arena| reads this, arena => arena[i].Model()),
            map k | k in calls :: calls[k].index)
    }

    ghost predicate Linked()
      reads this, arena, calls.Values
    {
      && (forall i | 0 <= i < |arena| :: arena[i].index == i)
      && (forall i | 0 <= i < |arena| :: (arena[i].done ==> arena[i].begun) && (arena[i].released ==> arena[i].done))
      && (forall k | k in calls :: calls[k].index < |arena| && arena[calls[k].index] == calls[k])
    }

    ghost predicate Valid()
      reads this, arena, calls.Values
    {
      Linked() && Coherent(Model())
    }

    constructor ()
      ensures Valid() && Model() == Table([], map[])
    {
      calls, arena := map[], [];
    }

    /** The locked lookup. */
    method Enter(key: string) returns (leader: bool, call: CallObject)
      requires Valid()
      modifies this
      ensures Valid() && Model() == EnterKey(old(Model()), key)
      ensures leader <==> key !in old(Model()).byKey
      ensures key in Model().byKey && call.index == Model().byKey[key] < |arena| && arena[call.index] == call
    {
      CoherentEnter(Model(), key);
      hide Coherent;
      if key in calls {
        return false, calls[key];
      }
      call := Register(key);
      leader := true;
    }

    method Register(key: string) returns (call: CallObject)
      requires Linked() && key !in calls
      modifies this
      ensures Linked() && Model() == EnterKey(old(Model()), key)
      ensures key in calls && calls[key] == call && call.index == |old(arena)| && arena == old(arena) + [call]
    {
      ghost var before := Model();
      call := new CallObject(key, |arena|);
      calls := calls[key := call];
      arena := arena + [call];
      assert Model().calls == before.calls + [Call(key, NoValue, Open)];
      assert Model().byKey == before.byKey[key := |before.calls|];
    }

    /** The once guard and the write; only the first completion gets through. */
    method Publish(call: CallObject, out: Out) returns (first: bool)
      requires Valid() && call in arena
      modifies call
      ensures Valid() && Model() == Complete(old(Model()), call.index, out)
      ensures first <==> old(Model()).calls[call.index].phase.Open?
    {
      hide Coherent;
      ghost var before := Model();
      CoherentComplete(before, call.index, out);
      assert forall i | 0 <= i < |arena| && i != call.index :: arena[i] != call;
      first := !call.begun;
      if first {
        call.begun := true;
        call.value := Published(out);
      }
      OneCallChanged(before, Model(), call.index);
      assert Model().byKey == before.byKey;
    }

    /** close(c.done) */
    method Close(call: CallObject)
      requires Valid() && call in arena && call.begun && !call.done
      modifies call
      ensures Valid() && Model() == CloseDone(old(Model()), call.index)
    {
      hide Coherent;
      ghost var before := Model();
      CoherentClose(before, call.index);
      assert forall i | 0 <= i < |arena| && i != call.index :: arena[i] != call;
      call.done := true;
      OneCallChanged(before, Model(), call.index);
      assert Model().byKey == before.byKey;
    }

    /** The locked delete, by key. */
    method Remove(call: CallObject)
      requires Valid() && call in arena && call.begun && call.done && !call.released
      modifies this`calls, call
      ensures Valid() && Model() == Delete(old(Model()), call.index)
    {
      hide Coherent;
      ghost var before := Model();
      CoherentDelete(before, call.index);
      assert forall i | 0 <= i < |arena| && i != call.index :: arena[i] != call;
      calls := calls - {call.key};
      call.released := true;
      OneCallChanged(before, Model(), call.index);
      assert Model().byKey == before.byKey - {call.key};
    }

    /** WaitValue, once the channel is closed. */
    method ReadValue(call: CallObject) returns (v: Value)
      requires Valid() && call in arena && call.done
      ensures v == Model().calls[call.index].value
    {
      v := call.value;
    }
  }

  lemma OneCallChanged(before: Table, after: Table, c: nat)
    requires c < |before.calls| == |after.calls|
    requires forall i | 0 <= i < |before.calls| && i != c :: after.calls[i] == before.calls[i]
    ensures after.calls == before.calls[c := after.calls[c]]
  {
  }
}
