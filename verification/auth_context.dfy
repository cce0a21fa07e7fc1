/**
 * The session store of frontend/src/context/AuthContext.tsx: the `user` cell,
 * its copy in `localStorage` under `mc_user`, and login, signup and logout.
 * The session is written as JSON; `Encode` is `JSON.stringify` of the session
 * and `Decode` the `JSON.parse` of what `Encode` writes.
 */
module AuthContext {

  import opened Wrappers
  import opened Text
  import opened Wire

  const StorageKey: string := "mc_user"

  /** A JSON string body: `"` and `\` written with a backslash before them. */
  function Escape(s: string): string {
    if s == [] then []
    else (if s[0] == '"' || s[0] == '\\' then ['\\', s[0]] else [s[0]]) + Escape(s[1..])
  }

  /**
   * Reads a JSON string body up to its closing quote: the text it denotes and
   * what follows the quote; None when there is no closing quote or an escape
   * `Escape` does not write.
   */
  function Unescape(t: string): Option<(string, string)> {
    if t == [] then None
    else if t[0] == '"' then Some(([], t[1..]))
    else if t[0] == '\\' then
      if |t| >= 2 && (t[1] == '"' || t[1] == '\\') then
        match Unescape(t[2..])
        case None => None
        case Some((u, rest)) => Some(([t[1]] + u, rest))
      else None
    else
      match Unescape(t[1..])
      case None => None
      case Some((u, rest)) => Some(([t[0]] + u, rest))
  }

  /** Reading an escaped string back, up to its closing quote, gives the string and what follows. */
  lemma {:induction false} UnescapeEscape(s: string, tail: string)
    ensures Unescape(Escape(s) + "\"" + tail) == Some((s, tail))
  {
    if s == [] {
      assert Escape(s) + "\"" + tail == "\"" + tail;
    } else {
      var t := Escape(s) + "\"" + tail;
      UnescapeEscape(s[1..], tail);
      var rest := Escape(s[1..]) + "\"" + tail;
      if s[0] == '"' || s[0] == '\\' {
        assert t == ['\\', s[0]] + rest;
        assert t[2..] == rest;
      } else {
        assert t == [s[0]] + rest;
        assert t[1..] == rest;
      }
      assert [s[0]] + s[1..] == s;
    }
  }

  const IdPrefix: string := "{\"id\":"
  const NameInfix: string := ",\"username\":\""

  /** `JSON.stringify(user)`: `null`, or the object with its `id` and `username` fields. */
  function Encode(u: Option<Session>): string {
    match u
    case None => "null"
    case Some(s) => IdPrefix + IntToString(s.id) + NameInfix + Escape(s.username) + "\"}"
  }

  /** `JSON.parse` of a stored session: None where it would throw or the text is not a session. */
  function Decode(t: string): Option<Option<Session>> {
    if t == "null" then Some(None)
    else if |t| >= |IdPrefix| && t[..|IdPrefix|] == IdPrefix then
      match ReadInt(t[|IdPrefix|..])
      case None => None
      case Some((id, r1)) =>
        if |r1| >= |NameInfix| && r1[..|NameInfix|] == NameInfix then
          match Unescape(r1[|NameInfix|..])
          case None => None
          case Some((name, r2)) => if r2 == "}" then Some(Some(Session(id, name))) else None
        else None
    else None
  }

  /** Parsing what was stringified gives the session back. */
  lemma DecodeEncode(u: Option<Session>)
    ensures Decode(Encode(u)) == Some(u)
  {
    if u.Some? {
      var s := u.value;
      var rest := Escape(s.username) + "\"}";
      var r1 := NameInfix + rest;
      var t := Encode(u);
      assert t == IdPrefix + (IntToString(s.id) + r1);
      assert t[..|IdPrefix|] == IdPrefix && t[|IdPrefix|..] == IntToString(s.id) + r1;
      ReadIntRoundTrip(s.id, r1);
      assert r1[..|NameInfix|] == NameInfix && r1[|NameInfix|..] == rest;
      UnescapeEscape(s.username, "}");
      assert rest == Escape(s.username) + "\"" + "}";
    }
  }

  /**
   * The initial session: the parsed `mc_user` entry (`getItem(...) || "null"`),
   * or null when the entry is absent or does not parse.
   */
  function Restore(storage: map<string, string>): Option<Session> {
    var text := if StorageKey in storage && storage[StorageKey] != "" then storage[StorageKey] else "null";
    match Decode(text)
    case None => None
    case Some(v) => v
  }

  /** After the persist effect has written the session, restoring gives that session back. */
  lemma RestoreAfterPersist(storage: map<string, string>, u: Option<Session>)
    ensures Restore(storage[StorageKey := Encode(u)]) == u
  {
    DecodeEncode(u);
  }

  /** An absent entry restores as no session. */
  lemma RestoreWithoutEntry(storage: map<string, string>)
    requires StorageKey !in storage
    ensures Restore(storage) == None
  {
  }

  /** `useAuth`: the context value, or the error thrown outside the provider. */
  function UseAuth<T>(ctx: Option<T>): (r: Reply<T>)
    ensures ctx.None? <==> r == Thrown("useAuth must be used within AuthProvider")
    ensures ctx.Some? ==> r == Answer(ctx.value)
  {
    match ctx
    case None => Thrown("useAuth must be used within AuthProvider")
    case Some(v) => Answer(v)
  }

  class AuthProvider {
    var user: Option<Session>
    var storage: map<string, string>
    var sent: seq<Call>

    /** The stored entry restores to the session in memory. */
    ghost predicate Valid()
      reads this
    {
      Restore(storage) == user
    }

    /** Mounting: the session restored from storage, then written back by the persist effect. */
    constructor (storage: map<string, string>)
      ensures Valid()
      ensures user == Restore(storage) && this.storage == storage[StorageKey := Encode(user)] && sent == []
    {
      user := Restore(storage);
      this.storage := storage[StorageKey := Encode(Restore(storage))];
      sent := [];
      RestoreAfterPersist(storage, Restore(storage));
    }

    /**
     * `login`: the session becomes the returned id with the typed username once
     * `/login` answers, and the persist effect stores it; a thrown call changes nothing.
     */
    method Login(username: string, password: string, reply: Reply<AuthReply>) returns (r: Reply<AuthReply>)
      requires Valid()
      modifies this
      ensures Valid() && r == reply
      ensures sent == old(sent) + [Call("POST", "/login", CredentialsBody(username, password))]
      ensures reply.Thrown? ==> user == old(user) && storage == old(storage)
      ensures reply.Answer? ==> user == Some(Session(reply.body.userId, username)) &&
                                storage == old(storage)[StorageKey := Encode(user)]
    {
      r := SignIn("/login", username, password, reply);
    }

    /** `signup`: the same steps against `/signup`. */
    method Signup(username: string, password: string, reply: Reply<AuthReply>) returns (r: Reply<AuthReply>)
      requires Valid()
      modifies this
      ensures Valid() && r == reply
      ensures sent == old(sent) + [Call("POST", "/signup", CredentialsBody(username, password))]
      ensures reply.Thrown? ==> user == old(user) && storage == old(storage)
      ensures reply.Answer? ==> user == Some(Session(reply.body.userId, username)) &&
                                storage == old(storage)[StorageKey := Encode(user)]
    {
      r := SignIn("/signup", username, password, reply);
    }

    method SignIn(path: string, username: string, password: string, reply: Reply<AuthReply>) returns (r: Reply<AuthReply>)
      requires Valid()
      modifies this
      ensures Valid() && r == reply
      ensures sent == old(sent) + [Call("POST", path, CredentialsBody(username, password))]
      ensures reply.Thrown? ==> user == old(user) && storage == old(storage)
      ensures reply.Answer? ==> user == Some(Session(reply.body.userId, username)) &&
                                storage == old(storage)[StorageKey := Encode(user)]
    {
      sent := sent + [Call("POST", path, CredentialsBody(username, password))];
      if reply.Thrown? {
        return reply;
      }
      user := Some(Session(reply.body.userId, username));
      // the persist effect: a new session object always differs from the old one
      RestoreAfterPersist(storage, user);
      storage := storage[StorageKey := Encode(user)];
      r := reply;
    }

    /**
     * `logout`: no session, and the entry removed; when the session was set,
     * the persist effect then writes `null` for the change.
     */
    method Logout()
      requires Valid()
      modifies this
      ensures Valid() && user == None && sent == old(sent)
      ensures old(user).Some? ==> storage == (old(storage) - {StorageKey})[StorageKey := "null"]
      ensures old(user).None? ==> storage == old(storage) - {StorageKey}
    {
      var before := user;
      user := None;
      storage := storage - {StorageKey};
      if before != None {
        storage := storage[StorageKey := "null"];
      }
    }
  }
}
