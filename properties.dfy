/** Properties of the view model over whole runs of events. */
module Properties {
  import opened Model
  import opened Domain

  /** Running two traces one after the other is running their concatenation. */
  lemma {:induction false} RunAppend(s: Status, a: seq<Event>, b: seq<Event>)
    requires Feasible(s, a) && Feasible(Run(s, a), b)
    ensures Feasible(s, a + b) && Run(s, a + b) == Run(Run(s, a), b)
    decreases |a|
  {
    if a != [] {
      assert (a + b)[0] == a[0];
      assert (a + b)[1..] == a[1..] + b;
      RunAppend(Step(s, a[0]), a[1..], b);
    } else {
      assert a + b == b;
    }
  }

  /** Without a refresh the spinner never comes back: adds, removes and reloads do not flash it. */
  lemma {:induction false} NoLoadingWithoutRefresh(s: Status, evs: seq<Event>)
    requires Feasible(s, evs)
    requires s.state != Loading
    requires forall k :: 0 <= k < |evs| ==> !evs[k].CallRefresh?
    ensures Run(s, evs).state != Loading
    decreases |evs|
  {
    if evs != [] {
      assert !evs[0].CallRefresh?;
      NoLoadingWithoutRefresh(Step(s, evs[0]), evs[1..]);
    }
  }

  /** An error stays published until the display layer hides it; no later completion clears it. */
  lemma {:induction false} ErrorKeptUntilHidden(s: Status, evs: seq<Event>)
    requires Feasible(s, evs)
    requires s.error.Some?
    requires forall k :: 0 <= k < |evs| ==> !evs[k].CallHideError?
    ensures Run(s, evs).error.Some?
    decreases |evs|
  {
    if evs != [] {
      assert !evs[0].CallHideError?;
      ErrorKeptUntilHidden(Step(s, evs[0]), evs[1..]);
    }
  }

  /** Every error shown was there at the start or is the failure of some completed call. */
  lemma {:induction false} ErrorOriginatesInFailure(s: Status, evs: seq<Event>, f: Failure)
    requires Feasible(s, evs)
    requires Run(s, evs).error == Some(f)
    ensures s.error == Some(f) ||
            exists k :: 0 <= k < |evs| && evs[k].Complete? && evs[k].reply == Failed(f)
    decreases |evs|
  {
    if evs != [] {
      var t := Step(s, evs[0]);
      ErrorOriginatesInFailure(t, evs[1..], f);
      if t.error == Some(f) && s.error != Some(f) {
        assert evs[0].Complete? && evs[0].reply == Failed(f);
      } else if t.error != Some(f) {
        var k :| 0 <= k < |evs[1..]| && evs[1..][k].Complete? && evs[1..][k].reply == Failed(f);
        assert evs[k + 1] == evs[1..][k];
      }
    }
  }

  /** The event neither refreshes nor completes a fetch. */
  predicate KeepsList(s: Status, e: Event)
    requires Enabled(s, e)
  {
    !e.CallRefresh? && !(e.Complete? && s.pending[e.index].Fetch?)
  }

  /** No event of the run refreshes or completes a fetch. */
  predicate KeepsListThroughout(s: Status, evs: seq<Event>)
    requires Feasible(s, evs)
    decreases |evs|
  {
    evs == [] || (KeepsList(s, evs[0]) && KeepsListThroughout(Step(s, evs[0]), evs[1..]))
  }

  /** Only a refresh or a completed fetch changes what the list area shows. */
  lemma {:induction false} ListChangesOnlyByRefreshOrFetch(s: Status, evs: seq<Event>)
    requires Feasible(s, evs) && KeepsListThroughout(s, evs)
    ensures Run(s, evs).state == s.state
    decreases |evs|
  {
    if evs != [] {
      ListChangesOnlyByRefreshOrFetch(Step(s, evs[0]), evs[1..]);
    }
  }

  /**
   * Overlapping fetches are not de-duplicated: whichever completes last decides the list,
   * whatever else completed before it.
   */
  lemma LastFetchWins(s: Status, before: seq<Event>, i: nat, users: seq<User>, after: seq<Event>)
    requires Feasible(s, before)
    requires Enabled(Run(s, before), Complete(i, Users(users)))
    requires Feasible(Step(Run(s, before), Complete(i, Users(users))), after)
    requires KeepsListThroughout(Step(Run(s, before), Complete(i, Users(users))), after)
    ensures Feasible(s, before + [Complete(i, Users(users))] + after)
    ensures Run(s, before + [Complete(i, Users(users))] + after).state == ShowList(users)
  {
    var e := Complete(i, Users(users));
    var mid := Step(Run(s, before), e);
    assert Run(Run(s, before), [e]) == mid;
    RunAppend(s, before, [e]);
    RunAppend(s, before + [e], after);
    ListChangesOnlyByRefreshOrFetch(mid, after);
  }

  /** The event launches a fetch: a refresh, or the success of an add or a remove. */
  predicate LaunchesFetch(s: Status, e: Event)
    requires Enabled(s, e)
  {
    e.CallRefresh? || (e.Complete? && !s.pending[e.index].Fetch? && e.reply.Done?)
  }

  /**
   * Fetch bookkeeping: each step launches at most one fetch, and only a refresh or a
   * mutation's success does; add and remove themselves launch none, so a reload never
   * runs alongside the mutation it follows.
   */
  lemma StepFetchCount(s: Status, e: Event)
    requires Enabled(s, e)
    ensures Fetches(Step(s, e).pending) + (if e.Complete? && s.pending[e.index].Fetch? then 1 else 0)
         == Fetches(s.pending) + (if LaunchesFetch(s, e) then 1 else 0)
  {
    match e
    case Complete(i, _) =>
      var rest := Without(s.pending, i);
      assert multiset(rest + [Fetch]) == multiset(rest) + multiset{Fetch};
    case CallRefresh =>
      assert multiset(s.pending + [Fetch]) == multiset(s.pending) + multiset{Fetch};
    case CallAddUser(p) =>
      assert multiset(s.pending + [Add(p)]) == multiset(s.pending) + multiset{Add(p)};
    case CallRemoveUser(id) =>
      assert multiset(s.pending + [Remove(id)]) == multiset(s.pending) + multiset{Remove(id)};
    case CallHideError =>
  }

  /** Hiding the error twice is hiding it once. */
  lemma HideErrorIdempotent(s: Status)
    ensures Step(Step(s, CallHideError), CallHideError) == Step(s, CallHideError)
    ensures Step(s, CallHideError).error == None
  {
  }
}
