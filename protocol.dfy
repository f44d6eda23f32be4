/** The cross-frame protocol: what the remotes post to the host window and what the host reads back. */
module Protocol {
  import opened Base

  /** The session's user record as the login remote builds it: `{ email }`. */
  datatype User = User(email: string)

  /** A property of a posted object as the receiver sees it: absent (`undefined`), `null`, or a value. */
  datatype Field<+T> = Missing | Null | Given(value: T) {
    /** The in-memory value after `setToken(msg.token)` / `setUser(msg.user)`: `undefined` and `null` are both "no value". */
    function ToOption(): Option<T> {
      if Given? then Some(value) else None
    }
  }

  /**
   * `e.data` of a `message` event. `NoData` is a falsy payload (`null`, `undefined`);
   * otherwise an object with an optional `type` and the two fields the host reads.
   */
  datatype Message = NoData | Data(kind: Option<string>, token: Field<string>, user: Field<User>)

  const LoginSuccessType: string := "LOGIN_SUCCESS"
  const LogoutType: string := "LOGOUT"

  /** The two localStorage keys that hold the session. */
  const TokenKey: string := "mf_token"
  const UserKey: string := "mf_user"

  /** `{ type: 'LOGIN_SUCCESS', token, user }` as the login remote posts it. */
  function LoginSuccess(token: string, user: User): Message {
    Data(Some(LoginSuccessType), Given(token), Given(user))
  }

  /** `{ type: 'LOGOUT' }` as the home and dashboard remotes post it. */
  const Logout: Message := Data(Some(LogoutType), Missing, Missing)

  predicate IsLoginSuccess(m: Message) {
    m.Data? && m.kind == Some(LoginSuccessType)
  }

  predicate IsLogout(m: Message) {
    m.Data? && m.kind == Some(LogoutType)
  }

  /**
   * The host window as the remotes see it through `window.parent`: `postMessage` appends
   * to `pending`, and the browser later dispatches the pending messages in order.
   */
  class Channel {
    var pending: seq<Message>

    constructor ()
      ensures pending == []
    {
      pending := [];
    }

    /** `window.parent.postMessage(m, '*')`. */
    method Post(m: Message)
      modifies this
      ensures pending == old(pending) + [m]
    {
      pending := pending + [m];
    }

    /** The browser takes the oldest pending message for dispatch. */
    method Take() returns (m: Message)
      requires pending != []
      modifies this
      ensures [m] + pending == old(pending)
    {
      m := pending[0];
      pending := pending[1..];
    }
  }
}
