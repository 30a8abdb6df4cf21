/**
 * The user-list view model: two observable cells, `state` and `error`, and the
 * repository calls it has started but that have not completed yet.
 */
module Domain {
  import opened Model

  /** What the list area shows: a spinner, or a list of users. */
  datatype UserListState = Loading | ShowList(users: seq<User>)

  /** A repository call that was launched and has not completed. */
  datatype Op = Fetch | Add(payload: AddUser) | Remove(id: int)

  /** How a repository call completes: a fetched list, a mutation's Unit, or a failure. */
  datatype Reply = Users(users: seq<User>) | Done | Failed(failure: Failure)

  /** The repository's typing: a fetch yields a list, an add or remove yields Unit. */
  predicate Fits(op: Op, reply: Reply) {
    if op.Fetch? then !reply.Done? else !reply.Users?
  }

  /** Everything the view model holds, as one value. */
  datatype Status = Status(state: UserListState, error: Option<Failure>, pending: seq<Op>)

  /** A call a display layer makes, or the completion of the `index`-th pending call. */
  datatype Event =
    | CallRefresh
    | CallAddUser(payload: AddUser)
    | CallRemoveUser(id: int)
    | CallHideError
    | Complete(index: nat, reply: Reply)

  predicate Enabled(s: Status, e: Event) {
    e.Complete? ==> e.index < |s.pending| && Fits(s.pending[e.index], e.reply)
  }

  /** The pending calls once the `i`-th has completed; the others keep their order. */
  function Without<T>(ops: seq<T>, i: nat): (r: seq<T>)
    requires i < |ops|
    ensures |r| == |ops| - 1
    ensures forall k :: 0 <= k < i ==> r[k] == ops[k]
    ensures forall k :: i <= k < |r| ==> r[k] == ops[k + 1]
    ensures multiset(r) == multiset(ops) - multiset{ops[i]}
  {
    assert ops == ops[..i] + [ops[i]] + ops[i + 1..];
    ops[..i] + ops[i + 1..]
  }

  /** The number of fetches in flight. */
  function Fetches(ops: seq<Op>): nat {
    multiset(ops)[Fetch]
  }

  /** The invariant the view model keeps: a spinner is only shown while a fetch is in flight. */
  predicate LoadingAwaitsFetch(s: Status) {
    s.state == Loading ==> Fetch in s.pending
  }

  /** The view model right after construction, with its initial fetch launched. */
  function Init(): (r: Status)
    ensures r.state == Loading && r.error == None && Fetches(r.pending) == |r.pending| == 1
    ensures LoadingAwaitsFetch(r)
  {
    StartFetch(Status(Loading, None, []))
  }

  /**
   * Launching a fetch: nothing is shown differently until it completes.
   * The specification of the method `UserListViewModel.LoadUsers`.
   */
  function StartFetch(s: Status): Status {
    s.(pending := s.pending + [Fetch])
  }

  /**
   * The continuation of a completed call, once it has left the pending calls.
   * The specification of the methods `UserListViewModel.CompleteFetch` and
   * `UserListViewModel.CompleteMutation`.
   */
  function Settle(s: Status, op: Op, reply: Reply): Status
    requires Fits(op, reply)
  {
    match reply
    case Users(users) => s.(state := ShowList(users))
    case Failed(f) =>
      if op.Fetch? then s.(state := ShowList([]), error := Some(f))
      else s.(error := Some(f))
    case Done => StartFetch(s)
  }

  /** One step of the view model; the reference definition its methods are proved against. */
  function Step(s: Status, e: Event): (r: Status)
    requires Enabled(s, e)
    ensures LoadingAwaitsFetch(s) ==> LoadingAwaitsFetch(r)
    ensures r.state == Loading ==> s.state == Loading || e.CallRefresh?
    ensures r.state != s.state ==> e.CallRefresh? || (e.Complete? && s.pending[e.index].Fetch?)
    ensures r.error != s.error ==>
              e.CallHideError? || (e.Complete? && e.reply.Failed? && r.error == Some(e.reply.failure))
  {
    match e
    case CallRefresh => StartFetch(s.(state := Loading))
    case CallAddUser(p) => s.(pending := s.pending + [Add(p)])
    case CallRemoveUser(id) => s.(pending := s.pending + [Remove(id)])
    case CallHideError => s.(error := None)
    case Complete(i, reply) =>
      var op := s.pending[i];
      StillPending(s.pending, i, Fetch);
      Settle(s.(pending := Without(s.pending, i)), op, reply)
  }

  /** A call other than the completed one is still pending. */
  lemma StillPending<T>(ops: seq<T>, i: nat, x: T)
    requires i < |ops|
    ensures x in ops && ops[i] != x ==> x in Without(ops, i)
  {
    if x in ops && ops[i] != x {
      assert x in multiset(ops);
    }
  }

  /** The events of `evs` can happen one after another from `s`. */
  predicate Feasible(s: Status, evs: seq<Event>)
    decreases |evs|
  {
    evs == [] || (Enabled(s, evs[0]) && Feasible(Step(s, evs[0]), evs[1..]))
  }

  /** The status after the events of `evs`, in the order they happen. */
  function Run(s: Status, evs: seq<Event>): (r: Status)
    requires Feasible(s, evs)
    ensures LoadingAwaitsFetch(s) ==> LoadingAwaitsFetch(r)
    decreases |evs|
  {
    if evs == [] then s else Run(Step(s, evs[0]), evs[1..])
  }

  class UserListViewModel {
    var state: UserListState
    var error: Option<Failure>
    /** The coroutines launched in the view model's scope that have not completed. */
    var pending: seq<Op>

    function Current(): Status
      reads this
    {
      Status(state, error, pending)
    }

    ghost predicate Valid()
      reads this
    {
      LoadingAwaitsFetch(Current())
    }

    constructor ()
      ensures Valid()
      ensures state == Loading && error == None && pending == [Fetch]
      ensures Current() == Init()
    {
      state := Loading;
      error := None;
      pending := [];
      new;
      LoadUsers();
    }

    /**
     * Launches a fetch; its result is applied by `CompleteFetch`. Called only from the
     * constructor, `Refresh` and `CompleteMutation`, as the source's private `loadUsers`.
     */
    method LoadUsers()
      modifies this
      ensures state == old(state) && error == old(error)
      ensures pending == old(pending) + [Fetch]
      ensures Current() == StartFetch(old(Current()))
    {
      pending := pending + [Fetch];
    }

    method RemoveUser(id: int)
      requires Valid()
      modifies this
      ensures Valid()
      ensures state == old(state) && error == old(error)
      ensures pending == old(pending) + [Remove(id)]
      ensures Current() == Step(old(Current()), CallRemoveUser(id))
    {
      pending := pending + [Remove(id)];
    }

    method AddUser(payload: Model.AddUser)
      requires Valid()
      modifies this
      ensures Valid()
      ensures state == old(state) && error == old(error)
      ensures pending == old(pending) + [Add(payload)]
      ensures Current() == Step(old(Current()), CallAddUser(payload))
    {
      pending := pending + [Add(payload)];
    }

    method Refresh()
      requires Valid()
      modifies this
      ensures Valid()
      ensures state == Loading && error == old(error)
      ensures pending == old(pending) + [Fetch]
      ensures Current() == Step(old(Current()), CallRefresh)
    {
      state := Loading;
      LoadUsers();
    }

    method HideError()
      requires Valid()
      modifies this
      ensures Valid()
      ensures error == None && state == old(state) && pending == old(pending)
      ensures Current() == Step(old(Current()), CallHideError)
    {
      error := None;
    }

    /**
     * The continuation of a fetch: show what came back, or an empty list and the failure.
     * Called only from `Resolve`, once the fetch has left `pending`: in the source it is a
     * lambda inside the launched coroutine.
     */
    method CompleteFetch(reply: Reply)
      requires Fits(Fetch, reply)
      modifies this
      ensures reply.Users? ==> state == ShowList(reply.users) && error == old(error)
      ensures reply.Failed? ==> state == ShowList([]) && error == Some(reply.failure)
      ensures pending == old(pending)
      ensures Current() == Settle(old(Current()), Fetch, reply)
    {
      match reply
      case Users(users) =>
        state := ShowList(users);
      case Failed(f) =>
        state := ShowList([]);
        error := Some(f);
    }

    /**
     * The continuation of an add or a remove: reload on success, publish the failure otherwise.
     * Called only from `Resolve`, once the call has left `pending`: in the source it is a
     * lambda inside the launched coroutine.
     */
    method CompleteMutation(op: Op, reply: Reply)
      requires !op.Fetch? && Fits(op, reply)
      modifies this
      ensures state == old(state)
      ensures reply.Done? ==> error == old(error) && pending == old(pending) + [Fetch]
      ensures reply.Failed? ==> error == Some(reply.failure) && pending == old(pending)
      ensures Current() == Settle(old(Current()), op, reply)
    {
      match reply
      case Done =>
        LoadUsers();
      case Failed(f) =>
        error := Some(f);
    }

    /** The `i`-th pending call completes with `reply`; which call completes next is the caller's choice. */
    method Resolve(i: nat, reply: Reply)
      requires Valid()
      requires i < |pending| && Fits(pending[i], reply)
      modifies this
      ensures Valid()
      ensures state == Loading ==> old(state) == Loading
      ensures old(pending[i]).Fetch? ==> pending == Without(old(pending), i)
      ensures old(pending[i]).Fetch? && reply.Users? ==>
                state == ShowList(reply.users) && error == old(error)
      ensures old(pending[i]).Fetch? && reply.Failed? ==>
                state == ShowList([]) && error == Some(reply.failure)
      ensures !old(pending[i]).Fetch? ==> state == old(state)
      ensures !old(pending[i]).Fetch? && reply.Failed? ==>
                error == Some(reply.failure) && pending == Without(old(pending), i)
      ensures !old(pending[i]).Fetch? && reply.Done? ==>
                error == old(error) && pending == Without(old(pending), i) + [Fetch]
      ensures Current() == Step(old(Current()), Complete(i, reply))
    {
      var op := pending[i];
      pending := Without(pending, i);
      if op.Fetch? {
        CompleteFetch(reply);
      } else {
        CompleteMutation(op, reply);
      }
    }
  }
}
