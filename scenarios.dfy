/**
 * The view model driven through the situations its unit tests describe. A repository
 * reply is a parameter; "shows loading" reads as `state == Loading` and "the users list"
 * as the users inside `ShowList`.
 */
module Scenarios {
  import opened Model
  import opened Domain

  /** A view model whose initial fetch has returned `users`. */
  method GivenLoaded(users: seq<User>) returns (vm: UserListViewModel)
    ensures fresh(vm) && vm.Valid()
    ensures vm.state == ShowList(users) && vm.error == None && vm.pending == []
  {
    vm := new UserListViewModel();
    vm.Resolve(0, Users(users));
  }

  /** Construction shows a spinner with no error, then the fetched users. */
  method InitialLoad(users: seq<User>)
    returns (shown: UserListState, shownError: Option<Failure>,
             loaded: UserListState, loadedError: Option<Failure>)
    ensures shown == Loading && shownError == None
    ensures loaded == ShowList(users) && loadedError == None
  {
    var vm := new UserListViewModel();
    shown, shownError := vm.state, vm.error;
    vm.Resolve(0, Users(users));
    loaded, loadedError := vm.state, vm.error;
  }

  /** A failed initial fetch shows an empty list and the failure. */
  method FailedLoad(f: Failure) returns (loaded: UserListState, loadedError: Option<Failure>)
    ensures loaded == ShowList([]) && loadedError == Some(f)
  {
    var vm := new UserListViewModel();
    vm.Resolve(0, Failed(f));
    loaded, loadedError := vm.state, vm.error;
  }

  /** A refresh shows the spinner at once, then the newly fetched users. */
  method RefreshLoadsNewUsers(users1: seq<User>, users2: seq<User>)
    returns (shown: UserListState, shownError: Option<Failure>,
             loaded: UserListState, loadedError: Option<Failure>)
    ensures shown == Loading && shownError == None
    ensures loaded == ShowList(users2) && loadedError == None
  {
    var vm := GivenLoaded(users1);
    vm.Refresh();
    shown, shownError := vm.state, vm.error;
    vm.Resolve(0, Users(users2));
    loaded, loadedError := vm.state, vm.error;
  }

  /**
   * An add is sent alone; the reload is launched only once it has succeeded, and the
   * list shows no spinner at any of the observed points.
   */
  method AddUserReloads(users1: seq<User>, payload: AddUser, users2: seq<User>)
    returns (observed: seq<UserListState>, inFlight: seq<Op>, afterAdd: seq<Op>,
             loadedError: Option<Failure>)
    ensures |observed| == 3 && observed[2] == ShowList(users2)
    ensures forall k :: 0 <= k < |observed| ==> observed[k] != Loading
    ensures inFlight == [Add(payload)] && afterAdd == [Fetch]
    ensures loadedError == None
  {
    var vm := GivenLoaded(users1);
    vm.AddUser(payload);
    observed, inFlight := [vm.state], vm.pending;
    vm.Resolve(0, Done);
    observed, afterAdd := observed + [vm.state], vm.pending;
    vm.Resolve(0, Users(users2));
    observed, loadedError := observed + [vm.state], vm.error;
  }

  /** A failed add publishes the failure and keeps the list; nothing is reloaded. */
  method AddUserFailure(users: seq<User>, payload: AddUser, f: Failure)
    returns (shown: UserListState, shownError: Option<Failure>, remaining: seq<Op>)
    ensures shown == ShowList(users) && shownError == Some(f) && remaining == []
  {
    var vm := GivenLoaded(users);
    vm.AddUser(payload);
    vm.Resolve(0, Failed(f));
    shown, shownError, remaining := vm.state, vm.error, vm.pending;
  }

  /** A remove followed by its reload shows the fetched list, with no spinner on the way. */
  method RemoveUserReloads(users1: seq<User>, id: int, users2: seq<User>)
    returns (observed: seq<UserListState>, inFlight: seq<Op>, afterRemove: seq<Op>,
             loadedError: Option<Failure>)
    ensures |observed| == 3 && observed[2] == ShowList(users2)
    ensures forall k :: 0 <= k < |observed| ==> observed[k] != Loading
    ensures inFlight == [Remove(id)] && afterRemove == [Fetch]
    ensures loadedError == None
  {
    var vm := GivenLoaded(users1);
    vm.RemoveUser(id);
    observed, inFlight := [vm.state], vm.pending;
    vm.Resolve(0, Done);
    observed, afterRemove := observed + [vm.state], vm.pending;
    vm.Resolve(0, Users(users2));
    observed, loadedError := observed + [vm.state], vm.error;
  }

  /** A failed remove publishes the failure and keeps the list; nothing is reloaded. */
  method RemoveUserFailure(users: seq<User>, id: int, f: Failure)
    returns (shown: UserListState, shownError: Option<Failure>, remaining: seq<Op>)
    ensures shown == ShowList(users) && shownError == Some(f) && remaining == []
  {
    var vm := GivenLoaded(users);
    vm.RemoveUser(id);
    vm.Resolve(0, Failed(f));
    shown, shownError, remaining := vm.state, vm.error, vm.pending;
  }
}
