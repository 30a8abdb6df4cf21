/** Value types the view model exchanges with the user repository. */
module Model {

  /** An absent or present value; the view model's nullable error slot. */
  datatype Option<+T> = None | Some(value: T)

  /** A user as fetched from the directory; identity is `id`. */
  datatype User = User(id: int, name: string, email: string)

  /** The payload of an add request: the backing store assigns the id. */
  datatype AddUser = AddUser(name: string, email: string)

  /** Why a repository call did not succeed; the view model only stores and forwards it. */
  datatype Failure = Failure(message: string)
}
