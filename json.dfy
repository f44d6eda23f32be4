/**
 * `JSON.stringify` and `JSON.parse` restricted to what crosses localStorage for the session:
 * the user record `{ email }`, the literal `null`, and the text of an absent value.
 */
module Json {
  import opened Base
  import opened Protocol

  /** The opening of `JSON.stringify({ email })`. */
  const UserPrefix: string := "{\"email\":\""

  /** Escapes of a JSON string literal for the quote and the backslash. */
  function EscapeChar(c: char): string {
    if c == '"' || c == '\\' then ['\\', c] else [c]
  }

  function Escape(s: string): string
    decreases |s|
  {
    if s == [] then [] else EscapeChar(s[0]) + Escape(s[1..])
  }

  /** `JSON.stringify(user)`. */
  function StringifyUser(u: User): string {
    UserPrefix + Escape(u.email) + "\"}"
  }

  /**
   * What `localStorage.setItem('mf_user', JSON.stringify(msg.user))` stores:
   * `JSON.stringify(undefined)` is `undefined`, which `setItem` turns into the text "undefined".
   */
  function StoredUser(u: Field<User>): string {
    match u
    case Missing => "undefined"
    case Null => "null"
    case Given(v) => StringifyUser(v)
  }

  /**
   * Reads the body of a JSON string literal up to its closing quote; gives the decoded
   * characters and the text after the quote, or None when the literal is not closed or
   * holds an escape other than the two above.
   */
  function ReadString(s: string): Option<(string, string)>
    decreases |s|
  {
    if s == [] then None
    else if s[0] == '"' then Some(([], s[1..]))
    else if s[0] == '\\' then
      if |s| >= 2 && (s[1] == '"' || s[1] == '\\') then
        match ReadString(s[2..])
        case None => None
        case Some(p) => Some(([s[1]] + p.0, p.1))
      else None
    else
      match ReadString(s[1..])
      case None => None
      case Some(p) => Some(([s[0]] + p.0, p.1))
  }

  /** `JSON.parse(text)` where a user record or `null` is expected; Err where `JSON.parse` throws. */
  function ParseUser(text: string): (r: Result<Option<User>>)
    ensures r == Ok(None) <==> text == "null"
  {
    if text == "null" then Ok(None)
    else if UserPrefix <= text then
      match ReadString(text[|UserPrefix|..])
      case None => Err("Unterminated string in JSON")
      case Some(p) => if p.1 == "}" then Ok(Some(User(p.0))) else Err("Unexpected token in JSON")
    else Err("Unexpected token in JSON")
  }

  lemma {:induction false} ReadEscaped(e: string, tail: string)
    ensures ReadString(Escape(e) + "\"" + tail) == Some((e, tail))
    decreases |e|
  {
    var s := Escape(e) + "\"" + tail;
    if e == [] {
      assert s == ['"'] + tail;
    } else {
      var after := Escape(e[1..]) + "\"" + tail;
      ReadEscaped(e[1..], tail);
      var c := e[0];
      assert Escape(e) == EscapeChar(c) + Escape(e[1..]);
      if c == '"' || c == '\\' {
        assert s == ['\\', c] + after;
        assert s[2..] == after;
      } else {
        assert s == [c] + after;
        assert s[1..] == after;
      }
      assert [c] + e[1..] == e;
    }
  }

  lemma {:induction false} ReadStringCanonical(s: string, e: string, tail: string)
    requires ReadString(s) == Some((e, tail))
    ensures s == Escape(e) + "\"" + tail
    decreases |s|
  {
    if s[0] == '"' {
      assert e == [];
    } else if s[0] == '\\' {
      var p := ReadString(s[2..]).value;
      ReadStringCanonical(s[2..], p.0, p.1);
      assert e == [s[1]] + p.0 && e[1..] == p.0;
      assert s == [s[0], s[1]] + s[2..];
    } else {
      var p := ReadString(s[1..]).value;
      ReadStringCanonical(s[1..], p.0, p.1);
      assert e == [s[0]] + p.0 && e[1..] == p.0;
      assert s == [s[0]] + s[1..];
    }
  }

  /** Parsing what was stringified gives the same user back. */
  lemma ParseStringifyUser(u: User)
    ensures ParseUser(StringifyUser(u)) == Ok(Some(u))
  {
    var text := StringifyUser(u);
    ReadEscaped(u.email, "}");
    assert text == UserPrefix + (Escape(u.email) + "\"" + "}");
    assert text[|UserPrefix|..] == Escape(u.email) + "\"" + "}";
  }

  /** A text parses to a user exactly when it is that user's stringified form. */
  lemma ParseUserCanonical(text: string, u: User)
    ensures ParseUser(text) == Ok(Some(u)) <==> text == StringifyUser(u)
  {
    if text == StringifyUser(u) {
      ParseStringifyUser(u);
    }
    if ParseUser(text) == Ok(Some(u)) {
      var p := ReadString(text[|UserPrefix|..]).value;
      ReadStringCanonical(text[|UserPrefix|..], p.0, p.1);
      assert text == UserPrefix + text[|UserPrefix|..];
    }
  }

  /**
   * The texts `JSON.parse` accepts here are `null` and the stringified users: each
   * stringified user parses to itself, and every other text is an error.
   */
  lemma ParseUserShape(text: string)
    ensures forall u :: text == StringifyUser(u) ==> ParseUser(text) == Ok(Some(u))
    ensures ParseUser(text).Ok? && text != "null" ==>
      ParseUser(text).value.Some? && text == StringifyUser(ParseUser(text).value.value)
  {
    forall u | text == StringifyUser(u)
      ensures ParseUser(text) == Ok(Some(u))
    {
      ParseStringifyUser(u);
    }
    if ParseUser(text).Ok? && text != "null" {
      ParseUserCanonical(text, ParseUser(text).value.value);
    }
  }

  /** A posted user survives the trip through localStorage; an absent one makes the read throw. */
  lemma StoredUserReadsBack(u: Field<User>)
    ensures u.Given? ==> ParseUser(StoredUser(u)) == Ok(Some(u.value))
    ensures u.Null? ==> ParseUser(StoredUser(u)) == Ok(None)
    ensures u.Missing? ==> ParseUser(StoredUser(u)).Err?
  {
    if u.Given? {
      ParseStringifyUser(u.value);
    }
  }
}
