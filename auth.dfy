/**
 * The sign-in gate (src/components/AuthProvider.tsx): a session is kept only when its e-mail is
 * one of the comma-separated addresses of the `VITE_ALLOWED_EMAILS` build variable; the
 * provider's `user` and `loading` state move with the sessions the auth client reports.
 */
module Auth {
  import opened Wrappers
  import opened Strings

  datatype User = User(id: string, email: Option<string>)

  /**
   * `import.meta.env.VITE_ALLOWED_EMAILS?.split(',') || []`: no variable gives no addresses;
   * otherwise the comma-free segments which, joined with commas, give the variable back (an
   * empty variable gives one empty segment).
   */
  function AllowedEmails(env: Option<string>): (r: seq<string>)
    ensures env.None? ==> r == []
    ensures env.Some? ==> |r| >= 1 && Join(r, ',') == env.value
    ensures forall i :: 0 <= i < |r| ==> ',' !in r[i]
  {
    match env
    case None => []
    case Some(s) =>
      SplitThenJoin(s, ',');
      Split(s, ',')
  }

  /** `session.user.email || ''`. */
  function EmailOf(u: User): string {
    u.email.GetOr("")
  }

  /** `allowedEmails.includes(session.user.email || '')`: exact, case-sensitive equality with a segment. */
  predicate IsAllowed(u: User, env: Option<string>) {
    EmailOf(u) in AllowedEmails(env)
  }

  /** Without the variable every session is rejected. */
  lemma NoListRejectsEveryone(u: User)
    ensures !IsAllowed(u, None)
  {
  }

  /** An address containing a comma can never be admitted. */
  lemma CommaAddressRejected(u: User, env: Option<string>)
    requires ',' in EmailOf(u)
    ensures !IsAllowed(u, env)
  {
  }

  /** A list written as comma-free addresses joined by commas admits exactly those addresses. */
  lemma ListAdmitsExactlyItsAddresses(addresses: seq<string>, u: User)
    requires |addresses| >= 1
    requires forall i :: 0 <= i < |addresses| ==> ',' !in addresses[i]
    ensures IsAllowed(u, Some(Join(addresses, ','))) <==> EmailOf(u) in addresses
  {
    JoinThenSplit(addresses, ',');
  }

  /** A single address admits that address and nothing else. */
  lemma SingleAddressAdmitsOnlyItself(address: string, u: User)
    requires ',' !in address
    ensures IsAllowed(u, Some(address)) <==> EmailOf(u) == address
  {
    JoinThenSplit([address], ',');
    assert Join([address], ',') == address;
  }

  /** Segments are compared as written: no trimming of spaces and no case folding. */
  lemma NoTrimmingNoCaseFolding()
    ensures !IsAllowed(User("u", Some("b@x.com")), Some("a@x.com, b@x.com"))
    ensures !IsAllowed(User("u", Some("A@x.com")), Some("a@x.com"))
    ensures IsAllowed(User("u", Some("a@x.com")), Some("a@x.com, b@x.com"))
  {
    var env := "a@x.com, b@x.com";
    assert env == Join(["a@x.com", " b@x.com"], ',');
    ListAdmitsExactlyItsAddresses(["a@x.com", " b@x.com"], User("u", Some("b@x.com")));
    ListAdmitsExactlyItsAddresses(["a@x.com", " b@x.com"], User("u", Some("a@x.com")));
    SingleAddressAdmitsOnlyItself("a@x.com", User("u", Some("A@x.com")));
    assert "A@x.com" != "a@x.com" by { assert "A@x.com"[0] != "a@x.com"[0]; }
  }

  /**
   * A user without an e-mail compares as '' and so is admitted by any list with an empty
   * segment: a trailing comma, two commas in a row, or an empty variable.
   */
  lemma EmptySegmentAdmitsUserWithoutEmail(id: string)
    ensures IsAllowed(User(id, None), Some(""))
    ensures IsAllowed(User(id, None), Some("a@x.com,"))
    ensures !IsAllowed(User(id, None), Some("a@x.com"))
  {
    SingleAddressAdmitsOnlyItself("", User(id, None));
    assert "a@x.com," == Join(["a@x.com", ""], ',');
    ListAdmitsExactlyItsAddresses(["a@x.com", ""], User(id, None));
    SingleAddressAdmitsOnlyItself("a@x.com", User(id, None));
  }

  /** What a handler does with the session it is given. */
  datatype Decision = Accept(user: User) | Reject | NoSession

  /** `session?.user` present and allowed, present and not allowed, or absent. */
  function Decide(session: Option<User>, env: Option<string>): (r: Decision)
    ensures r == NoSession <==> session.None?
    ensures r.Accept? <==> session.Some? && IsAllowed(session.value, env)
    ensures r == Reject <==> session.Some? && !IsAllowed(session.value, env)
    ensures r.Accept? ==> r.user == session.value
  {
    match session
    case None => NoSession
    case Some(u) => if IsAllowed(u, env) then Accept(u) else Reject
  }

  /** The calls a handler makes on the outside world, in order. */
  datatype Effect = SignOut | NavigateToLogin

  class AuthProvider {
    var user: Option<User>
    var loading: bool
    const allowList: Option<string>

    /** The kept user, when there is one, is admitted by the list. */
    ghost predicate Valid()
      reads this
    {
      user.Some? ==> IsAllowed(user.value, allowList)
    }

    constructor (env: Option<string>)
      ensures Valid()
      ensures user.None? && loading && allowList == env
      ensures !RendersChildren()
    {
      user := None;
      loading := true;
      allowList := env;
    }

    /** `{!loading && children}`. */
    predicate RendersChildren()
      reads this
    {
      !loading
    }

    /** The `getSession().then(...)` callback. */
    method OnInitialSession(session: Option<User>) returns (effects: seq<Effect>)
      requires Valid()
      modifies this
      ensures Valid()
      ensures Decide(session, allowList) == Reject ==>
                effects == [SignOut, NavigateToLogin] && user == old(user) && loading == old(loading)
      ensures Decide(session, allowList).Accept? ==> effects == [] && user == session && !loading
      ensures Decide(session, allowList) == NoSession ==> effects == [NavigateToLogin] && user.None? && !loading
      ensures RendersChildren() <==> old(RendersChildren()) || Decide(session, allowList) != Reject
    {
      if session.Some? {
        var allowedEmails := AllowedEmails(allowList);
        if EmailOf(session.value) !in allowedEmails {
          effects := [SignOut, NavigateToLogin];
          return;
        }
        user := session;
        loading := false;
        effects := [];
      } else {
        user := None;
        loading := false;
        effects := [NavigateToLogin];
      }
    }

    /** The `onAuthStateChange` callback: the same rule, with `loading` cleared at the end. */
    method OnAuthStateChange(session: Option<User>) returns (effects: seq<Effect>)
      requires Valid()
      modifies this
      ensures Valid()
      ensures Decide(session, allowList) == Reject ==>
                effects == [SignOut, NavigateToLogin] && user == old(user) && loading == old(loading)
      ensures Decide(session, allowList).Accept? ==> effects == [] && user == session && !loading
      ensures Decide(session, allowList) == NoSession ==> effects == [NavigateToLogin] && user.None? && !loading
      ensures RendersChildren() <==> old(RendersChildren()) || Decide(session, allowList) != Reject
    {
      if session.Some? {
        var allowedEmails := AllowedEmails(allowList);
        if EmailOf(session.value) !in allowedEmails {
          effects := [SignOut, NavigateToLogin];
          return;
        }
        user := session;
        effects := [];
      } else {
        user := None;
        effects := [NavigateToLogin];
      }
      loading := false;
    }
  }
}
