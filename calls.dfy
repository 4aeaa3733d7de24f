/**
 * The in-memory call bookkeeping shared by the web handlers and the lead
 * monitor: `call_history` (every call seen, in insertion order) and
 * `active_calls` (calls still in progress).  Both dictionaries hold the
 * very same info dict for a call placed by `make_call`, so a status written
 * through `call_history` is seen through `active_calls`; the model keeps
 * that sharing as the invariant that an active entry equals its history
 * entry.
 */
module Calls {
  import opened Wrappers
  import opened Leads

  /**
   * One call's info dict.  Calls placed by `make_call` carry the provider's
   * call SID and the lead; calls first seen by `handle_call` carry the
   * `lead_id` from the URL instead.  `None` is a key the dict does not have.
   */
  datatype CallInfo = CallInfo(
    callId: string,
    callSid: Option<string>,
    leadId: Option<string>,
    leadInfo: Option<Lead>,
    startTime: string,
    status: string)

  /** The state of both dictionaries; `order` lists the keys of `history` as Python's dict iterates them. */
  datatype Tables = Tables(history: map<string, CallInfo>, order: seq<string>, active: map<string, CallInfo>)

  /** The terminal statuses: reaching one takes a call out of `active_calls`. */
  predicate IsTerminal(status: string) {
    status in ["completed", "busy", "failed", "no-answer", "canceled"]
  }

  /** `order` enumerates the history keys once each, and every active call is its history entry. */
  ghost predicate WellFormed(t: Tables) {
    (forall i, j :: 0 <= i < j < |t.order| ==> t.order[i] != t.order[j])
    && (forall k :: k in t.history <==> k in t.order)
    && (forall k :: k in t.active ==> k in t.history && t.active[k] == t.history[k])
  }

  /** `call_history[call_id] = info`: a new key goes to the end of the iteration order, an existing one keeps its place. */
  function StoreEntry(t: Tables, callId: string, info: CallInfo): Tables {
    Tables(t.history[callId := info], if callId in t.history then t.order else t.order + [callId], t.active)
  }

  /** `make_call`'s insertion: the same info under the call id in both dictionaries. */
  function OpenEntry(t: Tables, callId: string, info: CallInfo): Tables {
    var s := StoreEntry(t, callId, info);
    Tables(s.history, s.order, s.active[callId := info])
  }

  /**
   * The status update of `handle_call_status` for a resolved call id: the
   * history entry's status is overwritten, whatever it was; a terminal
   * status then removes the call from the active calls, any other status is
   * seen there too through the shared dict.  An id that is not in the
   * history changes nothing.
   */
  function ApplyStatus(t: Tables, callId: string, status: string): Tables {
    if callId !in t.history then t
    else
      var info := t.history[callId].(status := status);
      var active :=
        if IsTerminal(status) then t.active - {callId}
        else if callId in t.active then t.active[callId := info]
        else t.active;
      Tables(t.history[callId := info], t.order, active)
  }

  lemma StoreKeepsWellFormed(t: Tables, callId: string, info: CallInfo)
    requires WellFormed(t) && callId !in t.active
    ensures WellFormed(StoreEntry(t, callId, info))
    ensures StoreEntry(t, callId, info).history.Keys == t.history.Keys + {callId}
  {
    var s := StoreEntry(t, callId, info);
    if callId !in t.history {
      forall i, j | 0 <= i < j < |s.order| ensures s.order[i] != s.order[j] {
        if j == |t.order| {
          assert s.order[i] == t.order[i];
        }
      }
    }
  }

  lemma OpenKeepsWellFormed(t: Tables, callId: string, info: CallInfo)
    requires WellFormed(t)
    ensures WellFormed(OpenEntry(t, callId, info))
    ensures OpenEntry(t, callId, info).history[callId] == info && OpenEntry(t, callId, info).active[callId] == info
  {
    var s := OpenEntry(t, callId, info);
    if callId !in t.history {
      forall i, j | 0 <= i < j < |s.order| ensures s.order[i] != s.order[j] {
        if j == |t.order| {
          assert s.order[i] == t.order[i];
        }
      }
    }
  }

  lemma ApplyStatusKeepsWellFormed(t: Tables, callId: string, status: string)
    requires WellFormed(t)
    ensures WellFormed(ApplyStatus(t, callId, status))
  {
  }

  /**
   * The status update overwrites unconditionally (a terminal status is not
   * final), keeps every history entry, removes the call from the active
   * calls exactly when the new status is terminal, and touches no other call.
   */
  lemma ApplyStatusEffect(t: Tables, callId: string, status: string, other: string)
    requires WellFormed(t) && callId in t.history
    ensures var u := ApplyStatus(t, callId, status);
      u.history.Keys == t.history.Keys && u.order == t.order
      && u.history[callId].status == status
      && u.history[callId] == t.history[callId].(status := status)
      && (IsTerminal(status) ==> callId !in u.active)
      && (!IsTerminal(status) ==> (callId in u.active <==> callId in t.active))
      && (other != callId ==> (other in u.active <==> other in t.active))
      && (other != callId && other in t.history ==> u.history[other] == t.history[other])
      && (other != callId && other in t.active ==> u.active[other] == t.active[other])
  {
  }

  /** An unknown call id leaves both dictionaries as they were. */
  lemma ApplyStatusUnknown(t: Tables, callId: string, status: string)
    requires callId !in t.history
    ensures ApplyStatus(t, callId, status) == t
  {
  }

  /** Repeating an event changes nothing more. */
  lemma ApplyStatusIdempotent(t: Tables, callId: string, status: string)
    requires WellFormed(t)
    ensures ApplyStatus(ApplyStatus(t, callId, status), callId, status) == ApplyStatus(t, callId, status)
  {
    if callId in t.history {
      var u := ApplyStatus(t, callId, status);
      var info := t.history[callId].(status := status);
      assert u.history[callId] == info;
      assert u.history[callId := u.history[callId].(status := status)] == u.history;
      if !IsTerminal(status) && callId in u.active {
        assert u.active[callId := info] == u.active;
      }
    }
  }

  /** Of two events for the same call, the history keeps the status of the later one. */
  lemma LastStatusWins(t: Tables, callId: string, first: string, second: string)
    requires WellFormed(t)
    ensures ApplyStatus(ApplyStatus(t, callId, first), callId, second).history
         == ApplyStatus(t, callId, second).history
  {
    if callId in t.history {
      var u := ApplyStatus(t, callId, first);
      assert u.history[callId].(status := second) == t.history[callId].(status := second);
    }
  }

  /** The first key, in iteration order from position `i`, whose call has the given SID. */
  function FirstWithSid(t: Tables, callSid: string, i: nat): (r: Option<string>)
    requires forall k :: k in t.order ==> k in t.history
    decreases |t.order| - i
    ensures r.Some? ==> r.value in t.history && t.history[r.value].callSid == Some(callSid)
    ensures r.Some? ==> exists n :: (i <= n < |t.order| && t.order[n] == r.value
      && forall m :: i <= m < n ==> t.history[t.order[m]].callSid != Some(callSid))
    ensures r.None? ==> forall m :: i <= m < |t.order| ==> t.history[t.order[m]].callSid != Some(callSid)
  {
    if i >= |t.order| then None
    else if t.history[t.order[i]].callSid == Some(callSid) then Some(t.order[i])
    else FirstWithSid(t, callSid, i + 1)
  }

  /** The two dictionaries as mutable state. */
  class CallTables {
    var history: map<string, CallInfo>
    var order: seq<string>
    var active: map<string, CallInfo>

    function State(): Tables
      reads this
    {
      Tables(history, order, active)
    }

    ghost predicate Valid()
      reads this
    {
      WellFormed(State())
    }

    constructor ()
      ensures Valid() && history == map[] && order == [] && active == map[]
    {
      history := map[];
      order := [];
      active := map[];
    }

    /** `call_history[call_id] = info` for a call that is not active. */
    method Store(callId: string, info: CallInfo)
      requires Valid() && callId !in active
      modifies this
      ensures Valid()
      ensures State() == StoreEntry(old(State()), callId, info)
    {
      StoreKeepsWellFormed(State(), callId, info);
      if callId !in history {
        order := order + [callId];
      }
      history := history[callId := info];
    }

    /** `call_history[call_id] = info; active_calls[call_id] = info`. */
    method Open(callId: string, info: CallInfo)
      requires Valid()
      modifies this
      ensures Valid()
      ensures State() == OpenEntry(old(State()), callId, info)
    {
      OpenKeepsWellFormed(State(), callId, info);
      if callId !in history {
        order := order + [callId];
      }
      history := history[callId := info];
      active := active[callId := info];
    }

    /** The status write of `handle_call_status` and the removal of a finished call from the active calls. */
    method SetStatus(callId: string, status: string)
      requires Valid()
      modifies this
      ensures Valid()
      ensures State() == ApplyStatus(old(State()), callId, status)
    {
      ApplyStatusKeepsWellFormed(State(), callId, status);
      if callId in history {
        var info := history[callId].(status := status);
        history := history[callId := info];
        if IsTerminal(status) {
          if callId in active {
            active := active - {callId};
          }
        } else if callId in active {
          active := active[callId := info];
        }
      }
    }

    /** The scan of `call_history.items()` for the first call with the given SID; `""` when there is none. */
    method FindBySid(callSid: string) returns (callId: string)
      requires Valid()
      ensures callId == FirstWithSid(State(), callSid, 0).GetOr("")
    {
      callId := "";
      var i := 0;
      while i < |order|
        invariant 0 <= i <= |order|
        invariant FirstWithSid(State(), callSid, 0) == FirstWithSid(State(), callSid, i)
      {
        var cid := order[i];
        if history[cid].callSid == Some(callSid) {
          callId := cid;
          break;
        }
        i := i + 1;
      }
    }
  }
}
