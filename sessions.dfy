/** The session builder of mem/session_factory.go: a session starts with no
    user, an empty token and the construction time as expiry, and then every
    option is applied to it in order, the first failing option aborting the
    construction. */
module Sessions {
  import opened Pbg

  /** The fields of a session. */
  datatype SessionState = SessionState(user: Option<Trainer>, token: string, expire: Time)

  /** The defaults NewSession starts from. */
  function Defaults(now: Time): SessionState
  {
    SessionState(None, "", now)
  }

  /** A session option: the three built by WithReference, WithToken and
      WithExpiringDate, and any other function of the session that may fail. */
  datatype SessionOption =
    | WithReference(user: Option<Trainer>)
    | WithToken(token: string)
    | WithExpiringDate(expiring: Time)
    | Custom(run: SessionState -> Result<SessionState>)

  predicate BuiltIn(option: SessionOption)
  {
    !option.Custom?
  }

  /** The effect of one option on the session's fields. A built-in option
      never fails and sets its own field only. */
  function Step(option: SessionOption, s: SessionState): (r: Result<SessionState>)
    ensures BuiltIn(option) ==> r.Success?
    ensures option.WithReference? ==> r.Success? && r.value.user == option.user
                                      && r.value.token == s.token && r.value.expire == s.expire
    ensures option.WithToken? ==> r.Success? && r.value.token == option.token
                                  && r.value.user == s.user && r.value.expire == s.expire
    ensures option.WithExpiringDate? ==> r.Success? && r.value.expire == option.expiring
                                         && r.value.user == s.user && r.value.token == s.token
  {
    match option
    case WithReference(u) => Success(s.(user := u))
    case WithToken(t) => Success(s.(token := t))
    case WithExpiringDate(e) => Success(s.(expire := e))
    case Custom(run) => run(s)
  }

  /** The options applied left to right; the first failure is the result. */
  function Fold(s: SessionState, options: seq<SessionOption>): Result<SessionState>
    decreases |options|
  {
    if options == [] then Success(s)
    else match Step(options[0], s)
         case Failure(e) => Failure(e)
         case Success(s') => Fold(s', options[1..])
  }

  /** The user set by the last WithReference of the list, or d if none. */
  function LastUser(options: seq<SessionOption>, d: Option<Trainer>): Option<Trainer>
    decreases |options|
  {
    if options == [] then d
    else if options[|options| - 1].WithReference? then options[|options| - 1].user
    else LastUser(options[..|options| - 1], d)
  }

  /** The token set by the last WithToken of the list, or d if none. */
  function LastToken(options: seq<SessionOption>, d: string): string
    decreases |options|
  {
    if options == [] then d
    else if options[|options| - 1].WithToken? then options[|options| - 1].token
    else LastToken(options[..|options| - 1], d)
  }

  /** The expiry set by the last WithExpiringDate of the list, or d if none. */
  function LastExpire(options: seq<SessionOption>, d: Time): Time
    decreases |options|
  {
    if options == [] then d
    else if options[|options| - 1].WithExpiringDate? then options[|options| - 1].expiring
    else LastExpire(options[..|options| - 1], d)
  }

  /** Folding a concatenation is folding the first part and, if that
      succeeded, folding the second part from its result. */
  lemma {:induction false} FoldAppend(s: SessionState, a: seq<SessionOption>, b: seq<SessionOption>)
    ensures Fold(s, a + b) == match Fold(s, a)
                              case Failure(e) => Failure(e)
                              case Success(t) => Fold(t, b)
    decreases |a|
  {
    if a == [] {
      assert a + b == b;
    } else {
      assert (a + b)[0] == a[0];
      assert (a + b)[1..] == a[1..] + b;
      match Step(a[0], s)
      case Failure(e) =>
      case Success(s') => FoldAppend(s', a[1..], b);
    }
  }

  /** Once the options before position i have succeeded, a failure of option
      i is the result of the whole fold: later options are not applied. */
  lemma FirstFailureAborts(s: SessionState, options: seq<SessionOption>, i: nat, t: SessionState, e: Error)
    requires i < |options|
    requires Fold(s, options[..i]) == Success(t)
    requires Step(options[i], t) == Failure(e)
    ensures Fold(s, options) == Failure(e)
  {
    assert options == options[..i] + options[i..];
    FoldAppend(s, options[..i], options[i..]);
    assert options[i..][0] == options[i];
  }

  /** A list of built-in options never fails, and each field ends up with the
      value of the last option that sets it, or keeps its starting value. */
  lemma {:induction false} BuiltInFoldLastWins(s: SessionState, options: seq<SessionOption>)
    requires forall k :: 0 <= k < |options| ==> BuiltIn(options[k])
    ensures Fold(s, options) ==
              Success(SessionState(LastUser(options, s.user), LastToken(options, s.token), LastExpire(options, s.expire)))
    decreases |options|
  {
    if options != [] {
      var init, last := options[..|options| - 1], options[|options| - 1];
      assert options == init + [last];
      BuiltInFoldLastWins(s, init);
      FoldAppend(s, init, [last]);
      assert [last][1..] == [];
    }
  }

  /** A session value whose fields the options change in place. */
  class Session {
    var user: Option<Trainer>
    var token: string
    var expire: Time

    function State(): SessionState
      reads this
    {
      SessionState(user, token, expire)
    }

    /** A new session: no user, an empty token, and `now` as expiry. */
    constructor (now: Time)
      ensures State() == Defaults(now)
    {
      user, token, expire := None, "", now;
    }

    /** Runs one option on this session: a built-in one sets its own field and
        reports no error; a failing one reports its error. */
    method Apply(option: SessionOption) returns (err: Option<Error>)
      modifies this
      ensures Step(option, old(State())).Success? ==> err == None && State() == Step(option, old(State())).value
      ensures Step(option, old(State())).Failure? ==> err == Some(Step(option, old(State())).error)
                                                      && State() == old(State())
    {
      match option
      case WithReference(u) =>
        user := u;
        err := None;
      case WithToken(t) =>
        token := t;
        err := None;
      case WithExpiringDate(e) =>
        expire := e;
        err := None;
      case Custom(run) =>
        var r := run(State());
        if r.Success? {
          user, token, expire := r.value.user, r.value.token, r.value.expire;
          err := None;
        } else {
          err := Some(r.error);
        }
    }
  }

  /** Builds a session from the defaults and the options in order. It returns
      the session when every option succeeded, and nil with the first error
      otherwise; with no options the session has the defaults. */
  method NewSession(now: Time, options: seq<SessionOption>) returns (session: Session?, err: Option<Error>)
    ensures err.None? <==> Fold(Defaults(now), options).Success?
    ensures err.None? ==> session != null && session.State() == Fold(Defaults(now), options).value
    ensures err.Some? ==> session == null && Fold(Defaults(now), options) == Failure(err.value)
    ensures options == [] ==> err == None && session != null
                              && session.user == None && session.token == "" && session.expire == now
  {
    var s := new Session(now);
    var i := 0;
    while i < |options|
      invariant 0 <= i <= |options|
      invariant Fold(Defaults(now), options[..i]) == Success(s.State())
      modifies s
    {
      ghost var before := s.State();
      var e := s.Apply(options[i]);
      if e.Some? {
        FirstFailureAborts(Defaults(now), options, i, before, e.value);
        return null, e;
      }
      FoldAppend(Defaults(now), options[..i], [options[i]]);
      assert options[..i + 1] == options[..i] + [options[i]];
      assert [options[i]][1..] == [];
      i := i + 1;
    }
    assert options[..i] == options;
    return s, None;
  }
}
