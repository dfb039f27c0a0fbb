/**
 * The reentrant database-session manager: one shared session per manager,
 * opened lazily by the first `async_start`, reference-counted by nested
 * starts, and closed exactly once by the `async_close` that balances the
 * first start.
 *
 * The first half is the manager's abstract state machine on values
 * (ScopeState, Start, Close, Run) with the lemmas about call sequences; the
 * second half is the manager itself as a class whose methods are proved to
 * follow that machine.
 */
module DbSession {

  // ---------------------------------------------------------------------
  // Connection hook
  // ---------------------------------------------------------------------

  /** The pragma that switches on foreign-key enforcement in SQLite. */
  const ForeignKeysPragma: string := "pragma foreign_keys=on"

  /**
   * The statements `_on_connect` executes on every new DBAPI connection of
   * the engine configured with `url`: the foreign-key pragma exactly when the
   * URL names a SQLite driver (its text starts with "sqlite"), nothing otherwise.
   */
  function OnConnectCommands(url: string): (cmds: seq<string>)
    ensures |cmds| <= 1
    ensures ForeignKeysPragma in cmds <==> "sqlite" <= url
    ensures forall c :: c in cmds ==> c == ForeignKeysPragma
  {
    if "sqlite" <= url then [ForeignKeysPragma] else []
  }

  // ---------------------------------------------------------------------
  // The acquire/release state machine on values
  // ---------------------------------------------------------------------

  /**
   * What a manager's state amounts to: whether a session is held, the
   * recursion depth, and the ghost bookkeeping of how many sessions were
   * created, how many were closed, and how many misuse warnings were logged.
   */
  datatype ScopeState = ScopeState(open: bool, depth: nat, created: nat, closed: nat, warnings: nat)

  /** The state of a freshly constructed manager: no session, depth 0, nothing done yet. */
  const Fresh: ScopeState := ScopeState(false, 0, 0, 0, 0)

  /**
   * The manager's invariant: without a session the depth is 0, and every
   * session created has been closed except the one currently held.
   */
  predicate Inv(s: ScopeState) {
    && (!s.open ==> s.depth == 0)
    && s.created == s.closed + (if s.open then 1 else 0)
  }

  /** Acquisitions not yet released: the outermost holder plus the nested ones. */
  function Holders(s: ScopeState): nat {
    if s.open then s.depth + 1 else 0
  }

  /**
   * `async_start`: a closed manager creates one session and holds it at depth
   * 0; an open one re-enters, creating nothing and logging a warning.
   */
  function Start(s: ScopeState): (r: ScopeState)
    requires Inv(s)
    ensures Inv(r) && r.open
    ensures Holders(r) == Holders(s) + 1
    ensures r.created == s.created + (if s.open then 0 else 1)
    ensures r.closed == s.closed
    ensures r.warnings == s.warnings + (if s.open then 1 else 0)
  {
    if s.open then s.(depth := s.depth + 1, warnings := s.warnings + 1)
    else s.(open := true, created := s.created + 1)
  }

  /**
   * `async_close`: releases one acquisition. Only the release of the last
   * holder closes the session; a release with no session is a no-op apart
   * from a warning.
   */
  function Close(s: ScopeState): (r: ScopeState)
    requires Inv(s)
    ensures Inv(r)
    ensures Holders(r) == if Holders(s) == 0 then 0 else Holders(s) - 1
    ensures r.created == s.created
    ensures r.closed == s.closed + (if Holders(s) == 1 then 1 else 0)
    ensures Holders(s) == 0 ==> r == s.(warnings := s.warnings + 1)
    ensures Holders(s) > 0 ==> r.warnings == s.warnings
  {
    if !s.open then s.(warnings := s.warnings + 1)
    else if s.depth > 0 then s.(depth := s.depth - 1)
    else s.(open := false, closed := s.closed + 1)
  }

  /** A call a client makes on the manager. */
  datatype Op = Acquire | Release

  function Apply(s: ScopeState, op: Op): (r: ScopeState)
    requires Inv(s)
    ensures Inv(r)
  {
    match op
    case Acquire => Start(s)
    case Release => Close(s)
  }

  /** The state after performing `ops` in order, starting from `s`. */
  function Run(s: ScopeState, ops: seq<Op>): (r: ScopeState)
    requires Inv(s)
    ensures Inv(r)
    ensures r.warnings >= s.warnings && r.created >= s.created && r.closed >= s.closed
    decreases |ops|
  {
    if ops == [] then s else Run(Apply(s, ops[0]), ops[1..])
  }

  /** The holder count after `ops`, starting from `h`: releases never take it below 0. */
  function Balance(h: nat, ops: seq<Op>): nat
    decreases |ops|
  {
    if ops == [] then h
    else
      match ops[0]
      case Acquire => Balance(h + 1, ops[1..])
      case Release => Balance(if h == 0 then 0 else h - 1, ops[1..])
  }

  /** `n` copies of the same call. */
  function Repeat(op: Op, n: nat): (ops: seq<Op>)
    ensures |ops| == n && forall i :: 0 <= i < n ==> ops[i] == op
  {
    if n == 0 then [] else [op] + Repeat(op, n - 1)
  }

  /** Acquisitions minus releases in `ops`. */
  function Excess(ops: seq<Op>): int
    decreases |ops|
  {
    if ops == [] then 0 else (if ops[0] == Acquire then 1 else -1) + Excess(ops[1..])
  }

  /** No prefix of `ops` releases more than it acquires. */
  predicate NeverOverReleased(ops: seq<Op>) {
    forall k :: 0 <= k <= |ops| ==> Excess(ops[..k]) >= 0
  }

  lemma {:induction false} RunAppend(s: ScopeState, a: seq<Op>, b: seq<Op>)
    requires Inv(s)
    ensures Run(s, a + b) == Run(Run(s, a), b)
    decreases |a|
  {
    if a == [] {
      assert a + b == b;
    } else {
      assert (a + b)[0] == a[0];
      assert (a + b)[1..] == a[1..] + b;
      RunAppend(Apply(s, a[0]), a[1..], b);
    }
  }

  /** The manager's holder count after any call sequence is the saturating balance of that sequence. */
  lemma {:induction false} RunHolders(s: ScopeState, ops: seq<Op>)
    requires Inv(s)
    ensures Holders(Run(s, ops)) == Balance(Holders(s), ops)
    ensures Run(s, ops).open <==> Balance(Holders(s), ops) > 0
    decreases |ops|
  {
    if ops != [] {
      RunHolders(Apply(s, ops[0]), ops[1..]);
    }
  }

  lemma {:induction false} BalanceIsExcess(h: nat, ops: seq<Op>)
    requires forall k :: 0 <= k <= |ops| ==> h + Excess(ops[..k]) >= 0
    ensures Balance(h, ops) == h + Excess(ops)
    decreases |ops|
  {
    if ops != [] {
      assert ops[..1] == [ops[0]];
      assert Excess(ops[..1]) == (if ops[0] == Acquire then 1 else -1) + Excess([]);
      var h' := if ops[0] == Acquire then h + 1 else h - 1;
      forall k | 0 <= k <= |ops[1..]|
        ensures h' + Excess(ops[1..][..k]) >= 0
      {
        assert ops[..k + 1][1..] == ops[1..][..k];
        assert ops[..k + 1][0] == ops[0];
      }
      BalanceIsExcess(h', ops[1..]);
      assert ops[..|ops|] == ops;
    }
  }

  /**
   * Reference counting: starting from a closed manager, after any call
   * sequence that never releases more than it acquired, the manager holds a
   * session exactly when the acquisitions outnumber the releases.
   */
  lemma OpenIffUnreleased(s: ScopeState, ops: seq<Op>)
    requires Inv(s) && !s.open
    requires NeverOverReleased(ops)
    ensures Run(s, ops).open <==> Excess(ops) > 0
    ensures Holders(Run(s, ops)) == Excess(ops)
  {
    RunHolders(s, ops);
    BalanceIsExcess(0, ops);
  }

  /** `n` starts from any state add `n` holders and create a session only if none was held. */
  lemma {:induction false} StartMany(s: ScopeState, n: nat)
    requires Inv(s)
    ensures Holders(Run(s, Repeat(Acquire, n))) == Holders(s) + n
    ensures Run(s, Repeat(Acquire, n)).created == s.created + (if !s.open && n > 0 then 1 else 0)
    ensures Run(s, Repeat(Acquire, n)).closed == s.closed
    decreases n
  {
    if n > 0 {
      var ops := Repeat(Acquire, n);
      assert ops[0] == Acquire && ops[1..] == Repeat(Acquire, n - 1);
      StartMany(Start(s), n - 1);
    }
  }

  /**
   * `k` closes from any state release `k` holders (never going below none),
   * close the session only when they release the last holder, and log one
   * warning for every close beyond that.
   */
  lemma {:induction false} CloseMany(s: ScopeState, k: nat)
    requires Inv(s)
    ensures Holders(Run(s, Repeat(Release, k))) == if k <= Holders(s) then Holders(s) - k else 0
    ensures Run(s, Repeat(Release, k)).created == s.created
    ensures Run(s, Repeat(Release, k)).closed == s.closed + (if 0 < Holders(s) <= k then 1 else 0)
    ensures Run(s, Repeat(Release, k)).warnings == s.warnings + (if k <= Holders(s) then 0 else k - Holders(s))
    decreases k
  {
    if k > 0 {
      var ops := Repeat(Release, k);
      assert ops[0] == Release && ops[1..] == Repeat(Release, k - 1);
      CloseMany(Close(s), k - 1);
    }
  }

  /**
   * Nested scopes: from a closed manager, `n >= 1` starts followed by `k`
   * closes create exactly one session; it is still open after fewer than `n`
   * closes, closed exactly once by the `n`-th, and every further close only
   * logs a warning.
   */
  lemma NestedStartsThenCloses(s: ScopeState, n: nat, k: nat)
    requires Inv(s) && !s.open && n >= 1
    ensures Run(s, Repeat(Acquire, n) + Repeat(Release, k)).created == s.created + 1
    ensures k < n ==> Run(s, Repeat(Acquire, n) + Repeat(Release, k)).open
    ensures k < n ==> Run(s, Repeat(Acquire, n) + Repeat(Release, k)).closed == s.closed
    ensures k >= n ==> !Run(s, Repeat(Acquire, n) + Repeat(Release, k)).open
    ensures k >= n ==> Run(s, Repeat(Acquire, n) + Repeat(Release, k)).closed == s.closed + 1
    ensures k >= n ==> Run(s, Repeat(Acquire, n) + Repeat(Release, k)).warnings
                       == Run(s, Repeat(Acquire, n)).warnings + (k - n)
  {
    RunAppend(s, Repeat(Acquire, n), Repeat(Release, k));
    StartMany(s, n);
    CloseMany(Run(s, Repeat(Acquire, n)), k);
  }

  /**
   * The context-manager pattern: `__aenter__` followed by `__aexit__` leaves
   * the holder count as it was; on a closed manager it opens and closes
   * exactly one session.
   */
  lemma ScopedUseRestores(s: ScopeState)
    requires Inv(s)
    ensures Holders(Close(Start(s))) == Holders(s)
    ensures Close(Start(s)).open == s.open
    ensures !s.open ==> Close(Start(s)).created == s.created + 1 && Close(Start(s)).closed == s.closed + 1
    ensures s.open ==> Close(Start(s)).created == s.created && Close(Start(s)).closed == s.closed
  {
  }

  /** Closing a manager that holds no session, any number of times, creates and closes nothing. */
  lemma {:induction false} ClosingClosedIsNoOp(s: ScopeState, k: nat)
    requires Inv(s) && !s.open
    ensures Run(s, Repeat(Release, k)) == s.(warnings := s.warnings + k)
    decreases k
  {
    if k > 0 {
      var ops := Repeat(Release, k);
      assert ops[0] == Release && ops[1..] == Repeat(Release, k - 1);
      ClosingClosedIsNoOp(Close(s), k - 1);
    }
  }

  // ---------------------------------------------------------------------
  // The manager as an object
  // ---------------------------------------------------------------------

  /**
   * A session handed out by the session factory. Its identity is the
   * object's; the ghost counter records how often it was closed.
   */
  class Session {
    ghost var closeCount: nat

    /** The factory call `AsyncSessionClass()`: a new, unclosed session. */
    constructor ()
      ensures closeCount == 0
    {
      closeCount := 0;
    }

    /** `AsyncSession.close()`: the driver call that releases the session. */
    method Close()
      modifies this
      ensures closeCount == old(closeCount) + 1
    {
      closeCount := closeCount + 1;
    }
  }

  class SessionManager {
    /** The database URL and SQL echo flag of the manager's configuration. */
    const url: string
    const debugSql: bool

    /** The shared session, or null while the manager is closed. */
    var asyncSession: Session?
    /** Nested acquisitions beyond the first. */
    var recursionDepth: nat

    /** Every session this manager created, oldest first. */
    ghost var history: seq<Session>
    /** Number of `Session.Close` calls the manager made. */
    ghost var closeCalls: nat
    /** Number of misuse warnings logged. */
    ghost var warnings: nat

    /**
     * The manager's invariant: depth is 0 without a session; the held session
     * is the last one created and is not closed; every other session it ever
     * created was closed exactly once; the sessions are distinct objects.
     */
    ghost predicate Valid()
      reads this, history
      ensures Valid() ==> Inv(Abs())
    {
      && (asyncSession == null ==> recursionDepth == 0)
      && (asyncSession != null ==> |history| > 0 && asyncSession == history[|history| - 1])
      && (forall i, j :: 0 <= i < j < |history| ==> history[i] != history[j])
      && (forall i :: 0 <= i < |history| ==>
            history[i].closeCount == if asyncSession != null && i == |history| - 1 then 0 else 1)
      && closeCalls + (if asyncSession != null then 1 else 0) == |history|
    }

    /** The manager's state as a value of the state machine. */
    ghost function Abs(): ScopeState
      reads this
    {
      ScopeState(asyncSession != null, recursionDepth, |history|, closeCalls, warnings)
    }

    /** The objects `AsyncClose` may change: the held session, if any. */
    ghost function Held(): set<object>
      reads this
    {
      if asyncSession == null then {} else {asyncSession}
    }

    /** `SessionManager(config)`: the manager starts closed. */
    constructor (url: string, debugSql: bool)
      ensures Valid() && Abs() == Fresh
      ensures asyncSession == null && recursionDepth == 0
      ensures this.url == url && this.debugSql == debugSql
    {
      this.url := url;
      this.debugSql := debugSql;
      asyncSession := null;
      recursionDepth := 0;
      history := [];
      closeCalls := 0;
      warnings := 0;
    }

    /**
     * `async_start`: returns the shared session. An open manager returns the
     * session it holds and goes one level deeper; a closed one creates a new
     * session, holds it at depth 0 and returns it.
     */
    method AsyncStart() returns (session: Session)
      requires Valid()
      modifies this
      ensures Valid() && Abs() == Start(old(Abs()))
      ensures asyncSession == session
      ensures old(asyncSession) != null ==>
                session == old(asyncSession) && recursionDepth == old(recursionDepth) + 1
                && history == old(history)
      ensures old(asyncSession) == null ==>
                fresh(session) && session.closeCount == 0 && recursionDepth == 0
                && history == old(history) + [session]
    {
      if asyncSession != null {
        recursionDepth := recursionDepth + 1;
        warnings := warnings + 1;
        session := asyncSession;
        return;
      }
      session := new Session();
      asyncSession := session;
      history := history + [session];
    }

    /**
     * `async_close`: releases one acquisition. With no session it only logs a
     * warning; at depth > 0 it goes one level up; at depth 0 it closes the
     * session, once, and forgets it.
     */
    method AsyncClose()
      requires Valid()
      modifies this, Held()
      ensures Valid() && Abs() == Close(old(Abs()))
      ensures history == old(history)
      ensures old(asyncSession) == null ==>
                asyncSession == null && recursionDepth == old(recursionDepth)
                && closeCalls == old(closeCalls)
      ensures old(asyncSession) != null && old(recursionDepth) > 0 ==>
                asyncSession == old(asyncSession) && recursionDepth == old(recursionDepth) - 1
                && asyncSession.closeCount == 0
      ensures old(asyncSession) != null && old(recursionDepth) == 0 ==>
                asyncSession == null && recursionDepth == 0 && old(asyncSession).closeCount == 1
    {
      if asyncSession == null {
        warnings := warnings + 1;
        return;
      }
      if recursionDepth > 0 {
        recursionDepth := recursionDepth - 1;
        return;
      }
      asyncSession.Close();
      closeCalls := closeCalls + 1;
      asyncSession := null;
    }

    /** `__aenter__`: entering `async with` starts the session. */
    method AEnter() returns (session: Session)
      requires Valid()
      modifies this
      ensures Valid() && Abs() == Start(old(Abs()))
      ensures asyncSession == session
      ensures old(asyncSession) != null ==> session == old(asyncSession) && history == old(history)
      ensures old(asyncSession) == null ==> fresh(session) && history == old(history) + [session]
    {
      session := AsyncStart();
    }

    /** `__aexit__`: leaving `async with`, normally or by an exception, closes one level. */
    method AExit()
      requires Valid()
      modifies this, Held()
      ensures Valid() && Abs() == Close(old(Abs()))
      ensures history == old(history)
      ensures old(asyncSession) != null && old(recursionDepth) == 0 ==>
                asyncSession == null && old(asyncSession).closeCount == 1
    {
      AsyncClose();
    }
  }

  /** Two nested `async with` blocks share one session, which the outer exit closes once. */
  method NestedUse(url: string) returns (outer: Session, inner: Session)
    ensures outer == inner
    ensures outer.closeCount == 1
  {
    var m := new SessionManager(url, false);
    outer := m.AEnter();
    inner := m.AEnter();
    m.AExit();
    assert m.asyncSession == outer && outer.closeCount == 0;
    m.AExit();
    m.AExit();
  }
}
