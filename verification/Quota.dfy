/** The three-level daily call quota shared by capture analysis, solution generation, critic and repair. */
module Quota {

  datatype Subject = Session(id: nat) | Process(id: nat)

  /** The owner of a counter row; the database allows no other combination of owners. */
  datatype Owner = Context(subject: Subject) | User(user: nat) | Global

  datatype Key = Key(owner: Owner, day: int)

  type Rows = map<Key, nat>

  datatype Policy = Policy(perSession: nat, perProcess: nat, perUser: nat, global: nat)

  datatype Outcome = Prepared | QuotaExceeded(scope: Owner) | AlreadyRunning

  function Limit(policy: Policy, owner: Owner): nat {
    match owner
    case Context(Session(_)) => policy.perSession
    case Context(Process(_)) => policy.perProcess
    case User(_) => policy.perUser
    case Global => policy.global
  }

  /** The counters one call is charged to, in the order of the loop. */
  function Scopes(user: nat, subject: Subject): seq<Owner> {
    [Context(subject), User(user), Global]
  }

  function Calls(rows: Rows, key: Key): nat {
    if key in rows then rows[key] else 0
  }

  function Charge(rows: Rows, key: Key): Rows {
    rows[key := Calls(rows, key) + 1]
  }

  function ChargeAll(rows: Rows, owners: seq<Owner>, day: int): Rows
    decreases |owners|
  {
    if owners == [] then rows else ChargeAll(Charge(rows, Key(owners[0], day)), owners[1..], day)
  }

  predicate WithinLimits(policy: Policy, rows: Rows, owners: seq<Owner>, day: int) {
    forall o | o in owners :: Calls(rows, Key(o, day)) < Limit(policy, o)
  }

  class Ledger {
    var rows: Rows

    constructor ()
      ensures rows == map[]
    {
      rows := map[];
    }

    /** `get_or_create` of the row, then the conditional update `calls < limit`. */
    method IncrementQuota(key: Key, limit: nat) returns (charged: bool)
      modifies this
      ensures charged <==> Calls(old(rows), key) < limit
      ensures charged ==> rows == Charge(old(rows), key)
      ensures !charged ==> rows == old(rows)[key := Calls(old(rows), key)]
    {
      if key !in rows {
        rows := rows[key := 0];
      }
      charged := rows[key] < limit;
      if charged {
        rows := rows[key := rows[key] + 1];
      }
    }

    /** The loop over the scopes; a refused scope leaves earlier charges for the caller to roll back. */
    method ReserveQuotas(policy: Policy, user: nat, subject: Subject, day: int) returns (r: Outcome)
      modifies this
      ensures r == Prepared ==> rows == ChargeAll(old(rows), Scopes(user, subject), day)
      ensures r == Prepared <==> WithinLimits(policy, old(rows), Scopes(user, subject), day)
      ensures r.QuotaExceeded? ==>
                && r.scope in Scopes(user, subject)
                && Calls(old(rows), Key(r.scope, day)) >= Limit(policy, r.scope)
      ensures r != AlreadyRunning
    {
      var owners := Scopes(user, subject);
      for i := 0 to |owners|
        invariant ChargeAll(old(rows), owners, day) == ChargeAll(rows, owners[i..], day)
        invariant forall k | i <= k < |owners| :: Calls(rows, Key(owners[k], day)) == Calls(old(rows), Key(owners[k], day))
        invariant forall k | 0 <= k < i :: Calls(old(rows), Key(owners[k], day)) < Limit(policy, owners[k])
      {
        assert owners[i..][1..] == owners[i + 1..];
        var charged := IncrementQuota(Key(owners[i], day), Limit(policy, owners[i]));
        if !charged {
          assert owners[i] in owners;
          return QuotaExceeded(owners[i]);
        }
      }
      return Prepared;
    }

    /**
     * The transaction of `prepare_capture_analysis`: charge, then create the running analysis. The
     * unique constraint on running analyses may refuse the creation; every error rolls back.
     */
    method PrepareCaptureAnalysis(policy: Policy, user: nat, session: nat, day: int, running: bool)
      returns (r: Outcome)
      modifies this
      ensures r == Prepared <==> Accepted(policy, old(rows), Reserve(user, Session(session), day, running))
      ensures rows == Step(policy, old(rows), Reserve(user, Session(session), day, running))
    {
      var saved := rows;
      r := ReserveQuotas(policy, user, Session(session), day);
      if r == Prepared && running {
        r := AlreadyRunning;
      }
      if r != Prepared {
        rows := saved;
      }
    }

    /** The transaction of `prepare_solution_generation_run`: the run is created first. */
    method PrepareSolutionGeneration(policy: Policy, user: nat, process: nat, day: int, running: bool)
      returns (r: Outcome)
      modifies this
      ensures r == Prepared <==> Accepted(policy, old(rows), Reserve(user, Process(process), day, running))
      ensures rows == Step(policy, old(rows), Reserve(user, Process(process), day, running))
    {
      var saved := rows;
      if running {
        return AlreadyRunning;
      }
      r := ReserveQuotas(policy, user, Process(process), day);
      if r != Prepared {
        rows := saved;
      }
    }

    /** Rows owned by a deleted user, session or process go with it. */
    method DeleteOwner(owner: Owner)
      requires owner != Global
      modifies this
      ensures rows == Forget(old(rows), owner)
    {
      rows := map k | k in rows && k.owner != owner :: rows[k];
    }
  }

  function Forget(rows: Rows, owner: Owner): Rows {
    map k | k in rows && k.owner != owner :: rows[k]
  }

  // ---- runs

  datatype Event =
    | Reserve(user: nat, subject: Subject, day: int, running: bool)
    | Delete(owner: Owner)

  predicate Accepted(policy: Policy, rows: Rows, e: Event) {
    e.Reserve? && !e.running && WithinLimits(policy, rows, Scopes(e.user, e.subject), e.day)
  }

  /** One transaction, as the methods of the ledger perform it. */
  function Step(policy: Policy, rows: Rows, e: Event): Rows {
    match e
    case Reserve(user, subject, day, _) =>
      if Accepted(policy, rows, e) then ChargeAll(rows, Scopes(user, subject), day) else rows
    case Delete(owner) => if owner == Global then rows else Forget(rows, owner)
  }

  function Run(policy: Policy, events: seq<Event>): Rows {
    if events == [] then map[]
    else Step(policy, Run(policy, events[..|events| - 1]), events[|events| - 1])
  }

  /** How many reservations of the day the run accepted. */
  function AcceptedOn(policy: Policy, events: seq<Event>, day: int): nat {
    if events == [] then 0
    else
      var front, e := events[..|events| - 1], events[|events| - 1];
      AcceptedOn(policy, front, day)
      + if Accepted(policy, Run(policy, front), e) && e.day == day then 1 else 0
  }

  ghost function Sum(rows: Rows, keys: set<Key>): nat {
    if keys == {} then 0
    else
      var k :| k in keys;
      Calls(rows, k) + Sum(rows, keys - {k})
  }

  ghost function UserTotal(rows: Rows, day: int): nat {
    Sum(rows, set k | k in rows && k.day == day && k.owner.User?)
  }

  ghost function ContextTotal(rows: Rows, day: int): nat {
    Sum(rows, set k | k in rows && k.day == day && k.owner.Context?)
  }

  lemma {:induction false} SumRemove(rows: Rows, keys: set<Key>, k: Key)
    requires k in keys
    ensures Sum(rows, keys) == Calls(rows, k) + Sum(rows, keys - {k})
  {
    var p :| p in keys && Sum(rows, keys) == Calls(rows, p) + Sum(rows, keys - {p});
    if p != k {
      SumRemove(rows, keys - {p}, k);
      SumRemove(rows, keys - {k}, p);
      assert keys - {p} - {k} == keys - {k} - {p};
    }
  }

  lemma {:induction false} SumSame(rows: Rows, rows': Rows, keys: set<Key>)
    requires forall k | k in keys :: Calls(rows, k) == Calls(rows', k)
    ensures Sum(rows, keys) == Sum(rows', keys)
  {
    if keys != {} {
      var k :| k in keys;
      SumRemove(rows, keys, k);
      SumRemove(rows', keys, k);
      SumSame(rows, rows', keys - {k});
    }
  }

  /** Charging one key adds one to the sum over any set that then holds the key. */
  lemma SumCharge(rows: Rows, key: Key, keys: set<Key>)
    requires key !in keys || key in rows
    ensures Sum(Charge(rows, key), keys + {key}) == Sum(rows, keys) + (if key in keys then 1 else Calls(rows, key) + 1)
  {
    var after := Charge(rows, key);
    SumRemove(after, keys + {key}, key);
    assert keys + {key} - {key} == keys - {key};
    SumSame(rows, after, keys - {key});
    if key in keys {
      SumRemove(rows, keys, key);
    } else {
      assert keys - {key} == keys;
    }
  }

  lemma {:induction false} SumSubset(rows: Rows, part: set<Key>, keys: set<Key>)
    requires part <= keys
    ensures Sum(rows, part) <= Sum(rows, keys)
  {
    if part != {} {
      var k :| k in part;
      SumRemove(rows, part, k);
      SumRemove(rows, keys, k);
      SumSubset(rows, part - {k}, keys - {k});
    }
  }

  /** One charge moves exactly the total of the charged key's own scope and day. */
  lemma ChargeTotals(rows: Rows, key: Key, day: int)
    ensures UserTotal(Charge(rows, key), day)
            == UserTotal(rows, day) + (if key.owner.User? && key.day == day then 1 else 0)
    ensures ContextTotal(Charge(rows, key), day)
            == ContextTotal(rows, day) + (if key.owner.Context? && key.day == day then 1 else 0)
  {
    var after := Charge(rows, key);
    var users := set k | k in rows && k.day == day && k.owner.User?;
    var users' := set k | k in after && k.day == day && k.owner.User?;
    var contexts := set k | k in rows && k.day == day && k.owner.Context?;
    var contexts' := set k | k in after && k.day == day && k.owner.Context?;
    if key.owner.User? && key.day == day {
      assert users' == users + {key};
      SumCharge(rows, key, users);
    } else {
      assert users' == users;
      SumSame(rows, after, users);
    }
    if key.owner.Context? && key.day == day {
      assert contexts' == contexts + {key};
      SumCharge(rows, key, contexts);
    } else {
      assert contexts' == contexts;
      SumSame(rows, after, contexts);
    }
  }

  lemma ChargedInOrder(rows: Rows, x: Owner, y: Owner, z: Owner, day: int)
    ensures ChargeAll(rows, [x, y, z], day)
            == Charge(Charge(Charge(rows, Key(x, day)), Key(y, day)), Key(z, day))
  {
    assert [x, y, z][1..] == [y, z] && [y, z][1..] == [z] && [z][1..] == [];
    var a := Charge(rows, Key(x, day));
    var b := Charge(a, Key(y, day));
    assert ChargeAll(b, [z], day) == Charge(b, Key(z, day));
    assert ChargeAll(a, [y, z], day) == ChargeAll(b, [z], day);
  }

  /** The three charges of one call, seen from the totals of a day. */
  lemma ChargedTotals(rows: Rows, user: nat, subject: Subject, callDay: int, day: int)
    ensures var after := ChargeAll(rows, Scopes(user, subject), callDay);
            var one := if day == callDay then 1 else 0;
            && UserTotal(after, day) == UserTotal(rows, day) + one
            && ContextTotal(after, day) == ContextTotal(rows, day) + one
  {
    ChargedInOrder(rows, Context(subject), User(user), Global, callDay);
    var a := Charge(rows, Key(Context(subject), callDay));
    var b := Charge(a, Key(User(user), callDay));
    ChargeTotals(rows, Key(Context(subject), callDay), day);
    ChargeTotals(a, Key(User(user), callDay), day);
    ChargeTotals(b, Key(Global, callDay), day);
  }

  /** The three charges of one call, seen from a counter. */
  lemma ChargedCounter(rows: Rows, user: nat, subject: Subject, callDay: int, key: Key)
    ensures Calls(ChargeAll(rows, Scopes(user, subject), callDay), key)
            == Calls(rows, key)
               + if key.day == callDay && key.owner in Scopes(user, subject) then 1 else 0
  {
    ChargedInOrder(rows, Context(subject), User(user), Global, callDay);
  }

  lemma ForgetTotals(rows: Rows, owner: Owner, day: int)
    ensures UserTotal(Forget(rows, owner), day) <= UserTotal(rows, day)
    ensures ContextTotal(Forget(rows, owner), day) <= ContextTotal(rows, day)
  {
    var after := Forget(rows, owner);
    var users := set k | k in after && k.day == day && k.owner.User?;
    var contexts := set k | k in after && k.day == day && k.owner.Context?;
    SumSame(rows, after, users);
    SumSame(rows, after, contexts);
    SumSubset(rows, users, set k | k in rows && k.day == day && k.owner.User?);
    SumSubset(rows, contexts, set k | k in rows && k.day == day && k.owner.Context?);
  }

  lemma EmptyTotals(day: int)
    ensures UserTotal(map[], day) == 0 && ContextTotal(map[], day) == 0
  {
  }

  ghost predicate NoDeletions(events: seq<Event>) {
    forall i | 0 <= i < |events| :: events[i].Reserve?
  }

  /**
   * Conservation over every run: no counter passes its limit, the global counter of a day is the
   * number of reservations accepted that day, and the users' and the contexts' totals of the day
   * are at most that number - equal to it as long as no owner was deleted.
   */
  lemma {:induction false} QuotaConservation(policy: Policy, events: seq<Event>, day: int)
    ensures var rows := Run(policy, events);
            && (forall o :: Calls(rows, Key(o, day)) <= Limit(policy, o))
            && Calls(rows, Key(Global, day)) == AcceptedOn(policy, events, day)
            && UserTotal(rows, day) <= Calls(rows, Key(Global, day))
            && ContextTotal(rows, day) <= Calls(rows, Key(Global, day))
            && (NoDeletions(events) ==>
                  UserTotal(rows, day) == ContextTotal(rows, day) == Calls(rows, Key(Global, day)))
  {
    EmptyTotals(day);
    hide UserTotal;
    hide ContextTotal;
    hide ChargeAll;
    if events != [] {
      var front, e := events[..|events| - 1], events[|events| - 1];
      QuotaConservation(policy, front, day);
      var rows := Run(policy, front);
      match e
      case Reserve(user, subject, callDay, _) =>
        if Accepted(policy, rows, e) {
          ChargedTotals(rows, user, subject, callDay, day);
          forall o { ChargedCounter(rows, user, subject, callDay, Key(o, day)); }
        }
      case Delete(owner) =>
        ForgetTotals(rows, owner, day);
    }
  }

  /** The accepted calls of a run that a counter is charged for. */
  function AcceptedFor(policy: Policy, events: seq<Event>, key: Key): nat {
    if events == [] then 0
    else
      var front, e := events[..|events| - 1], events[|events| - 1];
      AcceptedFor(policy, front, key)
      + if Accepted(policy, Run(policy, front), e) && e.day == key.day && key.owner in Scopes(e.user, e.subject)
        then 1 else 0
  }

  /** A run that only reserves charges every counter exactly once per accepted call it is scoped to. */
  lemma {:induction false} CountersCountCalls(policy: Policy, events: seq<Event>, key: Key)
    requires NoDeletions(events)
    ensures Calls(Run(policy, events), key) == AcceptedFor(policy, events, key)
  {
    if events != [] {
      var front, e := events[..|events| - 1], events[|events| - 1];
      CountersCountCalls(policy, front, key);
      ChargedCounter(Run(policy, front), e.user, e.subject, e.day, key);
    }
  }

  /**
   * When nothing is deleted, a call is accepted exactly if nothing of its kind is running and its session or
   * process, its user and everybody together have had fewer accepted calls that day than the policy allows.
   */
  lemma AcceptedIffBelow(policy: Policy, events: seq<Event>, user: nat, subject: Subject, day: int, running: bool)
    requires NoDeletions(events)
    ensures Accepted(policy, Run(policy, events), Reserve(user, subject, day, running)) <==>
              && !running
              && AcceptedFor(policy, events, Key(Context(subject), day)) < (if subject.Session? then policy.perSession else policy.perProcess)
              && AcceptedFor(policy, events, Key(User(user), day)) < policy.perUser
              && AcceptedFor(policy, events, Key(Global, day)) < policy.global
  {
    CountersCountCalls(policy, events, Key(Context(subject), day));
    CountersCountCalls(policy, events, Key(User(user), day));
    CountersCountCalls(policy, events, Key(Global, day));
    hide Run;
    hide AcceptedFor;
    var scopes := Scopes(user, subject);
    assert scopes[0] in scopes && scopes[1] in scopes && scopes[2] in scopes;
  }
}
