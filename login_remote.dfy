/** The login frame (remotes/login/src/LoginApp.jsx): a mock credential check that reports success to the host. */
module LoginRemote {
  import opened Protocol
  import opened Browser

  const MockEmail: string := "user@example.com"
  const MockPassword: string := "password123"
  const MockToken: string := "token-mock"
  const Rejected: string := "Credenciales incorrectas"

  predicate Authorized(email: string, password: string) {
    email == MockEmail && password == MockPassword
  }

  /** What one submit posts to the host window. */
  function SubmitPosts(email: string, password: string): (posted: seq<Message>)
    ensures |posted| <= 1
    ensures posted != [] <==> Authorized(email, password)
    ensures posted != [] ==> posted[0] == LoginSuccess(MockToken, User(email))
  {
    if Authorized(email, password) then [LoginSuccess(MockToken, User(email))] else []
  }

  /** The form's state hooks; `timers` counts the pending `setTimeout` calls that clear `err`. */
  class LoginApp {
    var email: string
    var password: string
    var err: string
    var timers: nat
    /** The frame's own localStorage, which the form never writes. */
    const storage: Storage
    /** `window.parent`. */
    const parent: Channel

    constructor (storage: Storage, parent: Channel)
      ensures email == "" && password == "" && err == "" && timers == 0
      ensures this.storage == storage && this.parent == parent
    {
      email, password, err, timers := "", "", "", 0;
      this.storage := storage;
      this.parent := parent;
    }

    method SetEmail(v: string)
      modifies this`email
      ensures email == v
    {
      email := v;
    }

    method SetPassword(v: string)
      modifies this`password
      ensures password == v
    {
      password := v;
    }

    /**
     * `handleSubmit`: the mock credentials post LOGIN_SUCCESS and leave `err` as it was;
     * anything else shows the error and schedules its removal. localStorage is not touched.
     */
    method HandleSubmit()
      modifies this`err, this`timers, parent
      ensures parent.pending == old(parent.pending) + SubmitPosts(email, password)
      ensures Authorized(email, password) ==> err == old(err) && timers == old(timers)
      ensures !Authorized(email, password) ==> err == Rejected && timers == old(timers) + 1
      ensures unchanged(storage)
    {
      if email == MockEmail && password == MockPassword {
        parent.Post(LoginSuccess(MockToken, User(email)));
      } else {
        err := Rejected;
        timers := timers + 1;
      }
    }

    /** One scheduled timer fires after 3000 ms and clears the error, whichever submit set it. */
    method TimerFires()
      requires timers > 0
      modifies this`err, this`timers
      ensures err == "" && timers == old(timers) - 1
    {
      err := "";
      timers := timers - 1;
    }
  }
}
