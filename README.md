# HikariCP statement proxy, modelled in Dafny

This project models `com.zaxxer.hikari.StatementProxy`, the wrapper a HikariCP
connection pool hands to the application in place of a driver's `Statement`.
A statement proxy owns one native statement (its *delegate*; Java's `null`
there means the proxy is closed) and keeps a back-reference to the connection
proxy that created it. The model covers:

- its lifecycle: `initialize` binds and opens it; `close` unregisters it from
  the connection's statement tracker, closes the native statement and drops
  the delegate, and does nothing at all on a closed proxy;
- result wrapping: `executeQuery` and `getGeneratedKeys` pass a null result
  straight back and turn a native result set into a result-set proxy built by
  the proxy factory and owned by the statement proxy;
- wrapper introspection: `isWrapperFor` and `unwrap` look through to the
  native statement and its own `java.sql.Wrapper` chain.

Files and modules:

- `wrappers.dfy` (`Wrappers`): `Option` for Java's nullable references,
  `Result` and `Outcome` for calls that may raise `SQLException`.
- `java_types.dfy` (`JavaTypes`): runtime classes with their supertypes and
  `Class.isAssignableFrom` over them.
- `jdbc.dfy` (`Jdbc`): native driver objects, the `java.sql.Wrapper` contract
  of JDBC 4.0 as a driver implements it (`NativeIsWrapperFor`, `NativeUnwrap`),
  and a `Driver` class that records every call the proxy makes into the driver.
  What the driver answers (a result set or null, an error, the outcome of a
  native close) is an input of each operation.
- `hikari.dfy` (`Hikari`): the connection proxy's statement tracker, the proxy
  factory, result-set proxies, the `StatementProxy` class, and a value-level
  view of the close lifecycle (`CloseView`, `CloseStep`, `CloseAll`) with the
  lemmas about repeated closes. `StatementProxy.Close` is proved to move the
  view exactly as `CloseStep` does.

The model follows the code where it differs from the pool's intended design:

- There is no "resource closed" error. `executeQuery`, `getGeneratedKeys`,
  `isWrapperFor` and `unwrap` dereference the delegate without a check, so
  the model requires the proxy to be open for them.
- If the native `close()` raises, the proxy has already been unregistered but
  the delegate is never set to null: the proxy stays open and the error
  reaches the caller. A later `close()` then unregisters it a second time
  (harmless to the tracker set) and calls the native `close()` again.
  `RepeatedClose` states this exactly.

## Model

| member | source | states |
|---|---|---|
| `JavaTypes.AssignableTransitive` | src/main/java/com/zaxxer/hikari/StatementProxy.java:89 | the assignability test used by `isWrapperFor` is transitive over the class hierarchy |
| `Jdbc.NativeIsWrapperForMeansSomeLayer` | src/main/java/com/zaxxer/hikari/StatementProxy.java:89 | the delegate's own `isWrapperFor(T)` holds exactly when some object in its wrapper chain has type `T` (both directions) |
| `Jdbc.NativeIsWrapperForSupertype` | src/main/java/com/zaxxer/hikari/StatementProxy.java:89 | a native object that is a wrapper for `T` is a wrapper for every supertype of `T` |
| `Jdbc.NativeUnwrap` | src/main/java/com/zaxxer/hikari/StatementProxy.java:101 | the delegate's own `unwrap(T)` succeeds exactly when it is a wrapper for `T`, returns an object of its chain whose class is assignable to `T`, and otherwise fails with "not a wrapper" |
| `Hikari.ConnectionProxy.UnregisterStatement` | src/main/java/com/zaxxer/hikari/StatementProxy.java:60 | unregistering removes exactly that statement from the tracker (nothing if it is absent) and is recorded once |
| `Hikari.ProxyFactory.GetProxyResultSet` | src/main/java/com/zaxxer/hikari/StatementProxy.java:72 | the factory returns a fresh result-set proxy owned by the given statement proxy and wrapping the given native result set, and records it |
| `Hikari.ClosedStaysClosed` | src/main/java/com/zaxxer/hikari/StatementProxy.java:55-58 | any number of closes on a closed proxy change nothing (no unregistration) and all succeed |
| `Hikari.RepeatedClose` | src/main/java/com/zaxxer/hikari/StatementProxy.java:53-63 | consecutive closes of an open proxy unregister once per failed native close plus once for the first successful one and never after; the proxy ends closed exactly when some native close succeeded; each attempt returns the native outcome, later calls return success |
| `Hikari.CloseIdempotent` | src/main/java/com/zaxxer/hikari/StatementProxy.java:53-63 | when the native close succeeds, closing twice leaves the same state as closing once, with exactly one unregistration, and both calls succeed |
| `Hikari.StatementProxy.Empty` | src/main/java/com/zaxxer/hikari/StatementProxy.java:34-37 | the default constructor leaves the proxy unbound and closed |
| `Hikari.StatementProxy.constructor` | src/main/java/com/zaxxer/hikari/StatementProxy.java:39-42 | the two-argument constructor leaves the proxy exactly as `initialize` does |
| `Hikari.StatementProxy.Initialize` | src/main/java/com/zaxxer/hikari/StatementProxy.java:44-49 | `proxy` is the object itself, `connection` the given owner, `delegate` the given statement; the proxy is open |
| `Hikari.StatementProxy.Close` | src/main/java/com/zaxxer/hikari/StatementProxy.java:53-63 | closed: returns success and changes nothing, not even the connection or the driver; open: the tracker loses exactly this proxy, one unregistration and one native close of the delegate are recorded, the native outcome is returned, and the delegate is dropped exactly when the native close succeeded; the lifecycle view moves as `CloseStep` says |
| `Hikari.StatementProxy.WrapResultSet` | src/main/java/com/zaxxer/hikari/StatementProxy.java:68-72 | an error passes through, null comes back as null, in both cases without a factory call; a native result set comes back as one fresh factory proxy owned by this proxy |
| `Hikari.StatementProxy.ExecuteQuery` | src/main/java/com/zaxxer/hikari/StatementProxy.java:65-73 | one `executeQuery` call on the delegate; its answer is handed back through the factory as `WrapResultSet` states |
| `Hikari.StatementProxy.GetGeneratedKeys` | src/main/java/com/zaxxer/hikari/StatementProxy.java:75-83 | one `getGeneratedKeys` call on the delegate; its answer is handed back through the factory as `WrapResultSet` states |
| `Hikari.StatementProxy.IsWrapperFor` | src/main/java/com/zaxxer/hikari/StatementProxy.java:87-90 | the proxy is a wrapper for `T` exactly when the delegate says it is, that is, exactly when some layer beneath the proxy has type `T` |
| `Hikari.StatementProxy.IsWrapperForSupertype` | src/main/java/com/zaxxer/hikari/StatementProxy.java:87-90 | a proxy that is a wrapper for `T` is a wrapper for every supertype of `T` |
| `Hikari.StatementProxy.Unwrap` | src/main/java/com/zaxxer/hikari/StatementProxy.java:93-104 | unwrap fails exactly when `isWrapperFor` is false, and then with "not a wrapper" for `T`; it returns the delegate itself when the delegate's class is assignable to `T`; whatever it returns has a class assignable to `T` and lies in the delegate's wrapper chain; in every case the result is exactly the delegate's own `unwrap(T)` answer, so the proxy shadows nothing |

## Left out

- The reflection-built method map (`selfMethodMap`, `getMethodMap`, lines 30 and 108-112) and the dispatch in `HikariProxyBase`: a performance device built on Java reflection, with no behaviour of its own to model.
- `HikariProxyBase` is not part of this model. Its static helpers `isWrapperFor(delegate, iface)` and `unwrap(delegate, iface)` are modelled as the delegate's own `java.sql.Wrapper` methods over a chain of nested native objects. The model assumes that the driver's `isWrapperFor` and `unwrap` never raise `SQLException`, and that the driver's `unwrap` returns one of the layers of its chain rather than a new proxy for it. JDBC 4.0 allows both, and drivers that do either are not modelled.
- Hikari.StatementProxy.IsWrapperFor: does not model an `SQLException` raised by the driver's own `isWrapperFor` (lines 87 and 89), because the driver's answer is modelled as a plain boolean computed from its wrapper chain.
- Hikari.StatementProxy.Unwrap: does not model an `SQLException` raised by the driver's own `isWrapperFor` or `unwrap` (lines 99-101). Its guarantees that it fails exactly when `isWrapperFor` is false and that it returns a layer of the delegate's chain depend on the driver model above.
- What the driver executes: the SQL text is recorded but not interpreted, and each driver reply (result set or null, error, native close outcome) is a parameter.
- `ConnectionProxy` and `ProxyFactory` are not part of this model beyond the statement tracker set, the unregister call and a factory that builds a fresh result-set proxy; where statements are registered with the tracker is not modelled.
- The result-set proxy's own lifecycle (its close and its tracker of the statement) is not part of this file and is not modelled.
- The text of the "not a wrapper" exception message: only the error kind and the requested type are kept.
- Java class identity is modelled structurally (a name and the supertypes); class loaders and interfaces extending `Object` implicitly are not modelled.
- Hikari.StatementProxy.Initialize: takes a non-null connection and statement, because the pool always passes a driver-created statement and its connection; Java would accept nulls and fail later.
- Hikari.StatementProxy.constructor: takes a non-null connection and statement, for the same reason as `Initialize`, which it calls.
- Thread safety of the tracker and a forced close racing an application close: the code has no synchronisation, and the model is sequential.
