/**
 * HikariCP's statement proxy (`com.zaxxer.hikari.StatementProxy`): the wrapper
 * the pool hands out in place of a driver statement. It owns one native
 * statement, reports to the connection proxy that created it when it closes,
 * routes every result set it produces through the proxy factory, and answers
 * `java.sql.Wrapper` questions by looking through to the native statement.
 */
module Hikari {
  import opened Wrappers
  import opened JavaTypes
  import opened Jdbc

  /**
   * The owning connection proxy, reduced to its statement tracker: the set of
   * statement proxies it currently counts as open, and (ghost) the record of
   * every unregistration it has been asked for.
   */
  class ConnectionProxy {
    var statements: set<StatementProxy>
    ghost var unregisterCalls: seq<StatementProxy>

    constructor ()
      ensures statements == {} && unregisterCalls == []
    {
      statements := {};
      unregisterCalls := [];
    }

    /** `unregisterStatement(statement)`: forget one statement; absent ones are ignored. */
    method UnregisterStatement(statement: StatementProxy)
      modifies this
      ensures statements == old(statements) - {statement}
      ensures unregisterCalls == old(unregisterCalls) + [statement]
    {
      statements := statements - {statement};
      unregisterCalls := unregisterCalls + [statement];
    }
  }

  /** A result-set proxy: a native result set together with the statement proxy that owns it. */
  class ResultSetProxy {
    const statement: StatementProxy
    const delegate: NativeObject

    constructor (statement: StatementProxy, delegate: NativeObject)
      ensures this.statement == statement && this.delegate == delegate
    {
      this.statement := statement;
      this.delegate := delegate;
    }
  }

  /** `ProxyFactory.INSTANCE`, reduced to the result-set proxies it has handed out, in order. */
  class ProxyFactory {
    var issued: seq<ResultSetProxy>

    constructor ()
      ensures issued == []
    {
      issued := [];
    }

    /** `getProxyResultSet(statement, resultSet)`: a new proxy owned by `statement`. */
    method GetProxyResultSet(statement: StatementProxy, resultSet: NativeObject) returns (w: ResultSetProxy)
      modifies this
      ensures fresh(w) && w.statement == statement && w.delegate == resultSet
      ensures issued == old(issued) + [w]
    {
      w := new ResultSetProxy(statement, resultSet);
      issued := issued + [w];
    }
  }

  /**
   * How a statement proxy hands back what the driver answered to a call that
   * produces a result set: an error is raised unchanged and null is returned
   * as null, in both cases without the factory being asked for anything;
   * a native result set comes back as exactly one new factory proxy owned by
   * `owner`, never as the bare native object.
   */
  ghost predicate RoutedThroughFactory(owner: StatementProxy, issuedBefore: seq<ResultSetProxy>,
                                       issuedAfter: seq<ResultSetProxy>,
                                       reply: Result<Option<NativeObject>, SqlError>,
                                       r: Result<Option<ResultSetProxy>, SqlError>)
  {
    match reply
    case Failure(e) => r == Failure(e) && issuedAfter == issuedBefore
    case Success(None) => r == Success(None) && issuedAfter == issuedBefore
    case Success(Some(rs)) =>
      r.Success? && r.value.Some? && issuedAfter == issuedBefore + [r.value.value]
      && r.value.value.statement == owner && r.value.value.delegate == rs
  }

  /* ---------- the close lifecycle, seen from outside one proxy ---------- */

  /**
   * What `close()` can change, for one bound statement proxy: whether it is
   * open (its delegate is set), whether its connection still tracks it, and
   * how many times it has been unregistered from that connection.
   */
  datatype CloseView = CloseView(open: bool, registered: bool, unregistrations: nat)

  /**
   * One call of `close()`, given what the native `close()` answers: a closed
   * proxy returns at once; an open one is unregistered, then closes its
   * delegate, and drops the delegate only if that native close succeeded.
   */
  function CloseStep(v: CloseView, nativeReply: Outcome<SqlError>): (step: (CloseView, Outcome<SqlError>))
  {
    if !v.open then (v, Pass)
    else (CloseView(nativeReply.Fail?, false, v.unregistrations + 1), nativeReply)
  }

  /** Consecutive calls of `close()`, one per native reply; the final view and what each call returned. */
  function CloseAll(v: CloseView, nativeReplies: seq<Outcome<SqlError>>): (steps: (CloseView, seq<Outcome<SqlError>>))
    decreases |nativeReplies|
  {
    if nativeReplies == [] then (v, [])
    else
      var (w, r) := CloseStep(v, nativeReplies[0]);
      var (u, rs) := CloseAll(w, nativeReplies[1..]);
      (u, [r] + rs)
  }

  /** How many native replies, from the first, are failures. */
  function FailedPrefix(nativeReplies: seq<Outcome<SqlError>>): (n: nat)
    ensures n <= |nativeReplies|
    ensures forall i :: 0 <= i < n ==> nativeReplies[i].Fail?
    ensures n < |nativeReplies| ==> nativeReplies[n].Pass?
  {
    if nativeReplies == [] || nativeReplies[0].Pass? then 0
    else 1 + FailedPrefix(nativeReplies[1..])
  }

  /** How many of the replies are consumed by real close attempts: every failure up to and including the first success. */
  function Attempts(nativeReplies: seq<Outcome<SqlError>>): (n: nat)
  {
    var n := FailedPrefix(nativeReplies);
    if n == |nativeReplies| then n else n + 1
  }

  /** Closing a closed proxy, any number of times, changes nothing and always succeeds. */
  lemma {:induction false} ClosedStaysClosed(v: CloseView, nativeReplies: seq<Outcome<SqlError>>)
    requires !v.open
    ensures CloseAll(v, nativeReplies).0 == v
    ensures CloseAll(v, nativeReplies).1 == seq(|nativeReplies|, _ => Pass)
    decreases |nativeReplies|
  {
    if nativeReplies != [] {
      ClosedStaysClosed(v, nativeReplies[1..]);
    }
  }

  /**
   * Closing an open proxy repeatedly: each close is a real attempt (one more
   * unregistration, the native reply returned) until the first native close
   * that succeeds; from then on the proxy is closed and every further close
   * returns at once. The proxy ends open exactly when no native close succeeded.
   */
  lemma {:induction false} RepeatedClose(v: CloseView, nativeReplies: seq<Outcome<SqlError>>)
    requires v.open
    ensures CloseAll(v, nativeReplies).0.unregistrations == v.unregistrations + Attempts(nativeReplies)
    ensures CloseAll(v, nativeReplies).0.open <==> FailedPrefix(nativeReplies) == |nativeReplies|
    ensures nativeReplies != [] ==> !CloseAll(v, nativeReplies).0.registered
    ensures |CloseAll(v, nativeReplies).1| == |nativeReplies|
    ensures forall i :: 0 <= i < |nativeReplies| ==>
      CloseAll(v, nativeReplies).1[i] == if i < Attempts(nativeReplies) then nativeReplies[i] else Pass
    decreases |nativeReplies|
  {
    if nativeReplies != [] {
      var (w, r) := CloseStep(v, nativeReplies[0]);
      var rest := nativeReplies[1..];
      if nativeReplies[0].Pass? {
        ClosedStaysClosed(w, rest);
      } else {
        RepeatedClose(w, rest);
        assert FailedPrefix(nativeReplies) == 1 + FailedPrefix(rest);
      }
    }
  }

  /**
   * Closing twice when the native close succeeds is closing once: the second
   * call returns at once and the proxy is unregistered exactly once.
   */
  lemma {:induction false} CloseIdempotent(v: CloseView, second: Outcome<SqlError>)
    requires v.open
    ensures CloseAll(v, [Pass, second]).0 == CloseStep(v, Pass).0
    ensures CloseAll(v, [Pass, second]).0.unregistrations == v.unregistrations + 1
    ensures CloseAll(v, [Pass, second]).1 == [Pass, Pass]
  {
    RepeatedClose(v, [Pass, second]);
    ClosedStaysClosed(CloseStep(v, Pass).0, [second]);
  }

  /* ---------- the statement proxy ---------- */

  class StatementProxy {
    /** The identity handed out to the application (`HikariProxyBase.proxy`). */
    var proxy: StatementProxy?
    var connection: ConnectionProxy?
    /** The native statement; `None` (Java's null) means the proxy is closed. */
    var delegate: Option<NativeObject>

    /** `StatementProxy()`: nothing bound yet; the factory calls `Initialize` next. */
    constructor Empty()
      ensures proxy == null && connection == null && delegate.None?
    {
      proxy := null;
      connection := null;
      delegate := None;
    }

    /** `StatementProxy(connection, statement)`: construct and initialize in one step. */
    constructor (connection: ConnectionProxy, statement: NativeObject)
      ensures proxy == this && this.connection == connection && delegate == Some(statement)
      ensures Valid() && IsOpen()
    {
      new;
      Initialize(connection, statement);
    }

    /** `initialize` has bound the proxy to itself and to an owning connection. */
    predicate Bound()
      reads this
    {
      proxy == this && connection != null
    }

    /** An open proxy is always bound: only `initialize` sets the delegate. */
    predicate Valid()
      reads this
    {
      delegate.Some? ==> Bound()
    }

    predicate IsOpen()
      reads this
    {
      delegate.Some?
    }

    /** `initialize(connection, statement)`: bind the proxy and open it. */
    method Initialize(connection: ConnectionProxy, statement: NativeObject)
      modifies this
      ensures proxy == this && this.connection == connection && delegate == Some(statement)
      ensures Valid() && IsOpen()
    {
      this.proxy := this;
      this.connection := connection;
      this.delegate := Some(statement);
    }

    /** This proxy's close lifecycle as `CloseStep` sees it. */
    ghost function View(): (v: CloseView)
      reads this, connection
      requires Bound()
    {
      CloseView(delegate.Some?, this in connection.statements, multiset(connection.unregisterCalls)[this])
    }

    /**
     * `close()`. Closed already: return, touching nothing. Open: unregister
     * from the connection, close the native statement, and only if that
     * succeeded drop the delegate; a native failure is raised to the caller
     * with the proxy unregistered but still open.
     */
    method Close(driver: Driver, nativeReply: Outcome<SqlError>) returns (r: Outcome<SqlError>)
      requires Valid()
      modifies this, connection, driver
      ensures Valid() && proxy == old(proxy) && connection == old(connection)
      ensures old(delegate).None? ==>
        r == Pass && delegate.None? && unchanged(driver) && (connection != null ==> unchanged(connection))
      ensures old(delegate).Some? ==>
        && connection.statements == old(connection.statements) - {this}
        && connection.unregisterCalls == old(connection.unregisterCalls) + [this]
        && driver.calls == old(driver.calls) + [CloseCall(old(delegate).value)]
        && r == nativeReply
        && delegate == (if nativeReply.Pass? then None else old(delegate))
      ensures old(Bound()) ==> View() == CloseStep(old(View()), nativeReply).0
      ensures old(Bound()) ==> r == CloseStep(old(View()), nativeReply).1
    {
      if delegate.None? {
        return Pass;
      }
      connection.UnregisterStatement(proxy);
      r := driver.Close(delegate.value, nativeReply);
      if r.Fail? {
        return;
      }
      delegate := None;
    }

    /** The factory hand-off shared by `executeQuery` and `getGeneratedKeys`. */
    method WrapResultSet(factory: ProxyFactory, reply: Result<Option<NativeObject>, SqlError>)
      returns (r: Result<Option<ResultSetProxy>, SqlError>)
      requires Valid() && IsOpen()
      modifies factory
      ensures RoutedThroughFactory(this, old(factory.issued), factory.issued, reply, r)
      ensures r.Success? && r.value.Some? ==> fresh(r.value.value)
    {
      match reply
      case Failure(e) =>
        r := Failure(e);
      case Success(None) =>
        r := Success(None);
      case Success(Some(resultSet)) =>
        var w := factory.GetProxyResultSet(proxy, resultSet);
        r := Success(Some(w));
    }

    /** `executeQuery(sql)`: ask the native statement, then wrap what it answered. */
    method ExecuteQuery(sql: string, driver: Driver, factory: ProxyFactory,
                        reply: Result<Option<NativeObject>, SqlError>)
      returns (r: Result<Option<ResultSetProxy>, SqlError>)
      requires Valid() && IsOpen()
      modifies driver, factory
      ensures driver.calls == old(driver.calls) + [ExecuteQueryCall(delegate.value, sql)]
      ensures RoutedThroughFactory(this, old(factory.issued), factory.issued, reply, r)
      ensures r.Success? && r.value.Some? ==> fresh(r.value.value)
    {
      var resultSet := driver.ExecuteQuery(delegate.value, sql, reply);
      r := WrapResultSet(factory, resultSet);
    }

    /** `getGeneratedKeys()`: ask the native statement, then wrap what it answered. */
    method GetGeneratedKeys(driver: Driver, factory: ProxyFactory,
                            reply: Result<Option<NativeObject>, SqlError>)
      returns (r: Result<Option<ResultSetProxy>, SqlError>)
      requires Valid() && IsOpen()
      modifies driver, factory
      ensures driver.calls == old(driver.calls) + [GetGeneratedKeysCall(delegate.value)]
      ensures RoutedThroughFactory(this, old(factory.issued), factory.issued, reply, r)
      ensures r.Success? && r.value.Some? ==> fresh(r.value.value)
    {
      var generatedKeys := driver.GetGeneratedKeys(delegate.value, reply);
      r := WrapResultSet(factory, generatedKeys);
    }

    /**
     * `isWrapperFor(iface)`: the native statement has type `iface`, or its own
     * wrapper chain says so. The answer is exactly the native statement's own,
     * and holds exactly when some layer beneath the proxy has type `iface`.
     */
    function IsWrapperFor(iface: ClassType): (r: bool)
      reads this
      requires IsOpen()
      ensures r <==> SomeLayerIs(delegate.value, iface)
      ensures r <==> NativeIsWrapperFor(delegate.value, iface)
    {
      NativeIsWrapperForMeansSomeLayer(delegate.value, iface);
      IsAssignableFrom(iface, delegate.value.cls) || NativeIsWrapperFor(delegate.value, iface)
    }

    /** A proxy that is a wrapper for a type is a wrapper for each of its supertypes. */
    lemma IsWrapperForSupertype(t: ClassType, u: ClassType)
      requires IsOpen() && IsWrapperFor(t) && IsAssignableFrom(u, t)
      ensures IsWrapperFor(u)
    {
      NativeIsWrapperForSupertype(delegate.value, t, u);
    }

    /**
     * `unwrap(iface)`: the native statement itself when it has type `iface`;
     * otherwise, when `isWrapperFor(iface)` holds, the native statement's own
     * unwrap; otherwise a "not a wrapper" error. It fails exactly when
     * `isWrapperFor(iface)` is false, what it returns has type `iface` and
     * lies in the native statement's wrapper chain, and it is always exactly
     * the native statement's own answer: the proxy shadows nothing.
     */
    function Unwrap(iface: ClassType): (r: Result<NativeObject, SqlError>)
      reads this
      requires IsOpen()
      ensures r.Success? <==> IsWrapperFor(iface)
      ensures r.Success? ==> IsAssignableFrom(iface, r.value.cls) && r.value in Chain(delegate.value)
      ensures IsAssignableFrom(iface, delegate.value.cls) ==> r == Success(delegate.value)
      ensures r == NativeUnwrap(delegate.value, iface)
      ensures r.Failure? ==> r.error == NotAWrapper(iface)
    {
      if IsAssignableFrom(iface, delegate.value.cls) then Success(delegate.value)
      else if IsWrapperFor(iface) then NativeUnwrap(delegate.value, iface)
      else Failure(NotAWrapper(iface))
    }
  }
}
