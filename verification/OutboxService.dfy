/** The outbox as the program runs it: an object whose methods update the rows
    and the matches in place. Each method is proved to be the step that module
    Outbox describes. */
module OutboxService {
  import opened Types
  import Outbox
  import OutboxTheorems

  class Sender {
    var rows: seq<Outbox.Row>
    var attempts: seq<Outbox.Attempt>
    var matches: map<Outbox.Match, Outbox.MatchState>
    var receivers: map<nat, Phone>
    ghost var calls: seq<Outbox.Call>
    ghost var reopened: seq<nat>
    ghost var left: set<nat>
    ghost var claims: map<nat, Phone>

    ghost function Value(): Outbox.Box
      reads this
    {
      Outbox.Box(rows, attempts, matches, receivers, calls, reopened, left, claims)
    }

    /** What every step keeps: the bound on resends, and the matches. */
    ghost predicate Valid()
      reads this
    {
      OutboxTheorems.Bounded(Value()) && OutboxTheorems.MatchInv(Value())
    }

    lemma StepKeeps(e: Outbox.Event)
      requires Outbox.Enabled(Value(), e)
      ensures Valid() ==>
                && OutboxTheorems.Bounded(Outbox.Step(Value(), e))
                && OutboxTheorems.MatchInv(Outbox.Step(Value(), e))
    {
      if Valid() {
        OutboxTheorems.StepBounded(Value(), e);
        OutboxTheorems.StepMatches(Value(), e);
      }
    }

    constructor ()
      ensures Value() == Outbox.EMPTY && Valid()
    {
      rows, attempts, matches, receivers := [], [], map[], map[];
      calls, reopened, left, claims := [], [], {}, map[];
      new;
      OutboxTheorems.EmptyIsBounded();
    }

    method SetState(i: nat, s: Outbox.RowState)
      requires i < |rows|
      modifies this`rows
      ensures Value() == Outbox.SetState(old(Value()), i, s)
    {
      rows := rows[i := rows[i].(state := s)];
    }

    /** The row has been delivered: its queued match photo is presented. */
    method Leave(i: nat, s: Outbox.RowState)
      requires i < |rows|
      modifies this`rows, this`matches, this`left
      ensures Value() == Outbox.Leave(old(Value()), i, s)
    {
      var m := rows[i].photoOf;
      SetState(i, s);
      if m.Some? && m.value in matches && matches[m.value] == Outbox.QueuedPhoto {
        matches := matches[m.value := Outbox.Presented];
      }
      left := left + {i};
    }

    /** The older-row query of send. */
    method HasOlder(i: nat) returns (older: bool)
      requires i < |rows|
      ensures older <==> Outbox.Blocked(rows, i)
    {
      for j := 0 to i
        invariant forall k :: 0 <= k < j && rows[k].phone == rows[i].phone ==> Outbox.Ended(rows[k].state)
      {
        if rows[j].phone == rows[i].phone && !Outbox.Ended(rows[j].state) { return true; }
      }
      older := false;
    }

    /** The first transaction of send. */
    method Claim(i: nat, live: bool, allowed: bool) returns (result: Outbox.ClaimResult)
      requires i < |rows|
      modifies this
      ensures (Value(), result) == Outbox.Claim(old(Value()), i, live, allowed)
      ensures old(Valid()) ==> Valid()
    {
      StepKeeps(Outbox.Claims(i, live, allowed));
      if rows[i].alert {
        SetState(i, Outbox.RowState.Cancelled);
        return Outbox.Finished;
      }
      if rows[i].format == Outbox.AwaitingFormat { return Outbox.Retry; }
      if Outbox.Ended(rows[i].state) { return Outbox.Finished; }
      var older := HasOlder(i);
      if older { return Outbox.Retry; }
      if rows[i].state == Outbox.Sending || rows[i].state == Outbox.Uncertain {
        SetState(i, Outbox.Uncertain);
        return Outbox.Retry;
      }
      if rows[i].mode != Outbox.Live {
        Leave(i, Outbox.ModeState(rows[i].mode));
        return Outbox.Finished;
      }
      if !live { return Outbox.Mismatch; }
      if !allowed { return Outbox.Retry; }
      SetState(i, Outbox.Sending);
      attempts := attempts + [Outbox.Attempt(i, Outbox.Claimed)];
      result := Outbox.Attempting(|attempts| - 1);
    }

    /** The channel call, with the answer the network gave. */
    method Call(k: nat, answer: Outbox.Answer)
      requires k < |attempts| && attempts[k].phase.Claimed?
      modifies this`attempts, this`calls
      ensures Value() == Outbox.CallChannel(old(Value()), k, answer)
      ensures old(Valid()) ==> Valid()
    {
      StepKeeps(Outbox.Calls(k, answer));
      calls := calls + [Outbox.Call(attempts[k].row, answer)];
      attempts := attempts[k := attempts[k].(phase := Outbox.Answered(answer))];
    }

    /** The second transaction of send. */
    method Report(k: nat)
      requires k < |attempts| && attempts[k].row < |rows| && attempts[k].phase.Answered?
      modifies this
      ensures Value() == Outbox.Report(old(Value()), k)
      ensures old(Valid()) ==> Valid()
    {
      StepKeeps(Outbox.Reports(k));
      var i, answer := attempts[k].row, attempts[k].phase.answer;
      attempts := attempts[k := attempts[k].(phase := Outbox.Over)];
      if answer == Outbox.Accepted {
        Leave(i, Outbox.Sent);
      } else {
        SetState(i, if answer == Outbox.Unknown then Outbox.Uncertain else Outbox.Pending);
      }
    }

    /** The admin's resolution of a stuck row. */
    method Resolve(i: nat, jobFailed: bool, outcome: Outbox.Resolution)
      requires i < |rows|
      modifies this
      ensures Value() == Outbox.Resolve(old(Value()), i, jobFailed, outcome)
      ensures old(Valid()) ==> Valid()
    {
      StepKeeps(Outbox.Resolves(i, jobFailed, outcome));
      if !jobFailed || !Outbox.Resolvable(rows[i].state) { return; }
      if outcome == Outbox.NotDelivered {
        SetState(i, Outbox.Pending);
        reopened := reopened + [i];
      } else if outcome == Outbox.Delivered {
        Leave(i, Outbox.Sent);
      } else {
        SetState(i, Outbox.RowState.Cancelled);
      }
    }

    /** The dedupe key of a match photo. */
    method FindPhotoRow(m: Outbox.Match) returns (found: bool)
      ensures found <==> Outbox.HasPhotoRow(rows, m)
    {
      for i := 0 to |rows|
        invariant forall j :: 0 <= j < i ==> rows[j].photoOf != Some(m)
      {
        if rows[i].photoOf == Some(m) { return true; }
      }
      found := false;
    }

    method MatchPhoto(m: Outbox.Match, mode: Outbox.Mode, hasPhoto: bool)
      modifies this`rows, this`matches
      ensures Value() == Outbox.MatchPhoto(old(Value()), m, mode, hasPhoto)
      ensures old(Valid() && Outbox.Enabled(Value(), Outbox.Offers(m, mode, hasPhoto))) ==> Valid()
    {
      if Outbox.Enabled(Value(), Outbox.Offers(m, mode, hasPhoto)) { StepKeeps(Outbox.Offers(m, mode, hasPhoto)); }
      if m !in matches {
        matches := matches[m := if hasPhoto then Outbox.QueuedPhoto else Outbox.WaitingPhoto];
      } else if matches[m] == Outbox.WaitingPhoto && hasPhoto {
        matches := matches[m := Outbox.QueuedPhoto];
      }
      if hasPhoto && matches[m] == Outbox.QueuedPhoto {
        var found := FindPhotoRow(m);
        if !found { rows := rows + [Outbox.Row(m.1, mode, Outbox.Pending, Outbox.Ready, false, Some(m))]; }
      }
    }

    /** The interest command: it succeeds exactly on a presented match of a
        request without a receiver. */
    method Interest(m: Outbox.Match, open: bool) returns (ok: bool)
      modifies this`matches, this`receivers, this`claims
      ensures ok <==> old(Outbox.Enabled(Value(), Outbox.Interests(m, open)))
      ensures Value() == if ok then Outbox.TakeMatch(old(Value()), m) else old(Value())
      ensures ok ==> OutboxTheorems.ClaimStands(Value(), m.0, m.1)
      ensures old(Valid()) ==> Valid()
    {
      if Outbox.Enabled(Value(), Outbox.Interests(m, open)) { StepKeeps(Outbox.Interests(m, open)); }
      if !open || m !in matches || matches[m] != Outbox.Presented || m.0 in receivers { return false; }
      receivers := receivers[m.0 := m.1];
      matches := map k | k in matches ::
        if k.0 != m.0 then matches[k] else if k == m then Outbox.Interested else Outbox.Unavailable;
      claims := claims[m.0 := m.1];
      ok := true;
    }
  }
}
