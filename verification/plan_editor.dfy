/**
 The structural edits of a loaded plan: delete a session, overwrite one
 property of a session, append a new session. Each changes one day's session
 list and leaves every other day, and every other part of the plan, as it was.
 */
module PlanEditor {
  import opened Wrappers
  import opened Plan

  /** `s.splice(i, 1)`: the element at `i` goes, the later ones move down by one. */
  function RemoveAt<T>(s: seq<T>, i: nat): (r: seq<T>)
    requires i < |s|
    ensures |r| == |s| - 1
    ensures forall k :: 0 <= k < i ==> r[k] == s[k]
    ensures forall k :: i <= k < |r| ==> r[k] == s[k + 1]
    ensures multiset(r) + multiset{s[i]} == multiset(s)
  {
    assert s == s[..i] + [s[i]] + s[i + 1..];
    s[..i] + s[i + 1..]
  }

  /** Putting the removed element back where it was restores the sequence. */
  lemma RemoveAtThenInsert<T>(s: seq<T>, i: nat)
    requires i < |s|
    ensures RemoveAt(s, i)[..i] + [s[i]] + RemoveAt(s, i)[i..] == s
  {
  }

  /** The plan differs from `p` at most in the sessions of day `d`. */
  predicate OnlySessionsOfDayChanged(p: Plan, r: Plan, d: nat)
    requires d < |p.days|
  {
    && r.urgent == p.urgent && r.stats == p.stats && r.tips == p.tips
    && |r.days| == |p.days|
    && r.days[d].name == p.days[d].name && r.days[d].date == p.days[d].date
    && forall e :: 0 <= e < |p.days| && e != d ==> r.days[e] == p.days[e]
  }

  /** Replaces the session list of day `d`. */
  function WithSessions(p: Plan, d: nat, sessions: seq<Session>): (r: Plan)
    requires d < |p.days|
    ensures OnlySessionsOfDayChanged(p, r, d)
    ensures r.days[d].sessions == sessions
  {
    p.(days := p.days[d := p.days[d].(sessions := sessions)])
  }

  /** Session `i` of day `d` exists. */
  predicate ValidAddress(p: Plan, d: int, i: int)
  {
    0 <= d < |p.days| && 0 <= i < |p.days[d].sessions|
  }

  /**
   `deleteSession` once confirmed: session `i` of day `d` goes, the later
   sessions of that day move down by one, everything else stays.
   */
  function DeleteSession(p: Plan, d: nat, i: nat): (r: Plan)
    requires ValidAddress(p, d, i)
    ensures OnlySessionsOfDayChanged(p, r, d)
    ensures |r.days[d].sessions| == |p.days[d].sessions| - 1
    ensures forall k :: 0 <= k < i ==> r.days[d].sessions[k] == p.days[d].sessions[k]
    ensures forall k :: i <= k < |r.days[d].sessions| ==> r.days[d].sessions[k] == p.days[d].sessions[k + 1]
    ensures multiset(r.days[d].sessions) + multiset{p.days[d].sessions[i]} == multiset(p.days[d].sessions)
  {
    WithSessions(p, d, RemoveAt(p.days[d].sessions, i))
  }

  /**
   `updateSession`: property `f` of session `i` of day `d` becomes `v`; every
   other property of that session, every other session and every other day
   stay as they were.
   */
  function UpdateSession(p: Plan, d: nat, i: nat, f: Field, v: string): (r: Plan)
    requires ValidAddress(p, d, i)
    ensures OnlySessionsOfDayChanged(p, r, d)
    ensures |r.days[d].sessions| == |p.days[d].sessions|
    ensures forall k :: 0 <= k < |p.days[d].sessions| && k != i ==> r.days[d].sessions[k] == p.days[d].sessions[k]
    ensures Get(r.days[d].sessions[i], f) == Some(v)
    ensures forall g :: g != f ==> Get(r.days[d].sessions[i], g) == Get(p.days[d].sessions[i], g)
  {
    var sessions := p.days[d].sessions;
    WithSessions(p, d, sessions[i := Set(sessions[i], f, v)])
  }

  /** `addNewSession`: day `d` gains the default session at its end and nothing else changes. */
  function AddSession(p: Plan, d: nat): (r: Plan)
    requires d < |p.days|
    ensures OnlySessionsOfDayChanged(p, r, d)
    ensures |r.days[d].sessions| == |p.days[d].sessions| + 1
    ensures r.days[d].sessions[..|p.days[d].sessions|] == p.days[d].sessions
    ensures r.days[d].sessions[|p.days[d].sessions|] == NewSession
    ensures ValidAddress(r, d, |p.days[d].sessions|)
  {
    WithSessions(p, d, p.days[d].sessions + [NewSession])
  }

  /** Two plans that agree outside day `d` and on its session list are equal. */
  lemma PlanExtensional(p: Plan, r: Plan, d: nat)
    requires d < |p.days|
    requires OnlySessionsOfDayChanged(p, r, d)
    requires r.days[d].sessions == p.days[d].sessions
    ensures r == p
  {
    assert r.days[d] == p.days[d];
    assert forall e :: 0 <= e < |p.days| ==> r.days[e] == p.days[e];
    assert r.days == p.days;
  }

  /** Deleting the session just added gives back the plan it was added to. */
  lemma DeleteUndoesAdd(p: Plan, d: nat)
    requires d < |p.days|
    ensures DeleteSession(AddSession(p, d), d, |p.days[d].sessions|) == p
  {
    var q := AddSession(p, d);
    var r := DeleteSession(q, d, |p.days[d].sessions|);
    assert r.days[d].sessions == p.days[d].sessions;
    PlanExtensional(p, r, d);
  }

  /** Writing back the value a property had before an update undoes the update. */
  lemma UpdateUndone(p: Plan, d: nat, i: nat, f: Field, v: string, w: string)
    requires ValidAddress(p, d, i)
    requires Get(p.days[d].sessions[i], f) == Some(w)
    ensures UpdateSession(UpdateSession(p, d, i, f, v), d, i, f, w) == p
  {
    var q := UpdateSession(p, d, i, f, v);
    var r := UpdateSession(q, d, i, f, w);
    SessionExtensional(r.days[d].sessions[i], p.days[d].sessions[i]);
    assert r.days[d].sessions == p.days[d].sessions;
    PlanExtensional(p, r, d);
  }

  /** Repeating an update changes nothing more: every keystroke rewrites the whole value. */
  lemma UpdateIdempotent(p: Plan, d: nat, i: nat, f: Field, v: string)
    requires ValidAddress(p, d, i)
    ensures UpdateSession(UpdateSession(p, d, i, f, v), d, i, f, v) == UpdateSession(p, d, i, f, v)
  {
    var q := UpdateSession(p, d, i, f, v);
    var r := UpdateSession(q, d, i, f, v);
    SessionExtensional(r.days[d].sessions[i], q.days[d].sessions[i]);
    assert r.days[d].sessions == q.days[d].sessions;
    PlanExtensional(q, r, d);
  }
}
