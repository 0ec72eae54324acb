/**
 * The native side of JDBC as the statement proxy sees it: driver objects with
 * their runtime class and the `java.sql.Wrapper` chain beneath them, and the
 * calls the proxy makes into the driver.
 */
module Jdbc {
  import opened Wrappers
  import opened JavaTypes

  /** Errors a JDBC call can raise (`SQLException`), by kind. */
  datatype SqlError =
    | NotAWrapper(iface: ClassType)   // unwrap asked for a type nothing in the chain has
    | DriverFailure(code: int)        // the driver itself raised, for a reason of its own

  /**
   * A native driver object (statement or result set). `handle` tells objects
   * of the same class apart; `wrapped` is the object it wraps when the driver
   * stacks several layers (a vendor pool beneath this one, say).
   */
  datatype NativeObject = NativeObject(handle: nat, cls: ClassType, wrapped: Option<NativeObject>)

  /** The object and every object beneath it, outermost first. */
  function Chain(o: NativeObject): (c: seq<NativeObject>)
    ensures |c| >= 1 && c[0] == o
    decreases o
  {
    if o.wrapped.None? then [o] else [o] + Chain(o.wrapped.value)
  }

  /** The reference reading of "is a wrapper for": some layer of the chain has type `iface`. */
  predicate SomeLayerIs(o: NativeObject, iface: ClassType) {
    exists k :: 0 <= k < |Chain(o)| && IsAssignableFrom(iface, Chain(o)[k].cls)
  }

  /**
   * The driver's own `isWrapperFor(iface)` as `java.sql.Wrapper` specifies it:
   * the object has type `iface`, or it wraps an object that is (directly or
   * indirectly) a wrapper for `iface`.
   */
  predicate NativeIsWrapperFor(o: NativeObject, iface: ClassType)
    decreases o
  {
    IsAssignableFrom(iface, o.cls) || (o.wrapped.Some? && NativeIsWrapperFor(o.wrapped.value, iface))
  }

  /** The driver's answer is the reference reading, in both directions. */
  lemma {:induction false} NativeIsWrapperForMeansSomeLayer(o: NativeObject, iface: ClassType)
    ensures NativeIsWrapperFor(o, iface) <==> SomeLayerIs(o, iface)
    decreases o
  {
    if o.wrapped.Some? {
      var w := o.wrapped.value;
      NativeIsWrapperForMeansSomeLayer(w, iface);
      assert Chain(o) == [o] + Chain(w);
      if SomeLayerIs(w, iface) {
        var k :| 0 <= k < |Chain(w)| && IsAssignableFrom(iface, Chain(w)[k].cls);
        assert Chain(o)[k + 1] == Chain(w)[k];
      }
      if SomeLayerIs(o, iface) && !IsAssignableFrom(iface, o.cls) {
        var k :| 0 <= k < |Chain(o)| && IsAssignableFrom(iface, Chain(o)[k].cls);
        assert k != 0;
        assert Chain(w)[k - 1] == Chain(o)[k];
      }
    } else {
      assert Chain(o) == [o];
    }
  }

  /** A wrapper for a type is a wrapper for each of that type's supertypes. */
  lemma {:induction false} NativeIsWrapperForSupertype(o: NativeObject, t: ClassType, u: ClassType)
    requires NativeIsWrapperFor(o, t) && IsAssignableFrom(u, t)
    ensures NativeIsWrapperFor(o, u)
    decreases o
  {
    if IsAssignableFrom(t, o.cls) {
      AssignableTransitive(u, t, o.cls);
    } else {
      NativeIsWrapperForSupertype(o.wrapped.value, t, u);
    }
  }

  /**
   * The driver's own `unwrap(iface)` as `java.sql.Wrapper` specifies it: the
   * object itself when it has type `iface`, else the unwrap of the object it
   * wraps, else a `NotAWrapper` error.
   */
  function NativeUnwrap(o: NativeObject, iface: ClassType): (r: Result<NativeObject, SqlError>)
    ensures r.Success? <==> NativeIsWrapperFor(o, iface)
    ensures r.Success? ==> IsAssignableFrom(iface, r.value.cls) && r.value in Chain(o)
    ensures r.Failure? ==> r.error == NotAWrapper(iface)
    decreases o
  {
    if IsAssignableFrom(iface, o.cls) then Success(o)
    else if o.wrapped.Some? then NativeUnwrap(o.wrapped.value, iface)
    else Failure(NotAWrapper(iface))
  }

  /** A call the proxy made into the driver, in the order it was made. */
  datatype DriverCall =
    | CloseCall(target: NativeObject)
    | ExecuteQueryCall(target: NativeObject, sql: string)
    | GetGeneratedKeysCall(target: NativeObject)

  /**
   * The driver, seen only through the calls made into it. What a call
   * answers is the driver's business: it is passed in as `reply`.
   */
  class Driver {
    var calls: seq<DriverCall>

    constructor ()
      ensures calls == []
    {
      calls := [];
    }

    /** `Statement.close()` on a native statement. */
    method Close(target: NativeObject, reply: Outcome<SqlError>) returns (r: Outcome<SqlError>)
      modifies this
      ensures calls == old(calls) + [CloseCall(target)] && r == reply
    {
      calls := calls + [CloseCall(target)];
      r := reply;
    }

    /** `Statement.executeQuery(sql)`: a result set, null, or an error. */
    method ExecuteQuery(target: NativeObject, sql: string, reply: Result<Option<NativeObject>, SqlError>)
      returns (r: Result<Option<NativeObject>, SqlError>)
      modifies this
      ensures calls == old(calls) + [ExecuteQueryCall(target, sql)] && r == reply
    {
      calls := calls + [ExecuteQueryCall(target, sql)];
      r := reply;
    }

    /** `Statement.getGeneratedKeys()`: a result set, null, or an error. */
    method GetGeneratedKeys(target: NativeObject, reply: Result<Option<NativeObject>, SqlError>)
      returns (r: Result<Option<NativeObject>, SqlError>)
      modifies this
      ensures calls == old(calls) + [GetGeneratedKeysCall(target)] && r == reply
    {
      calls := calls + [GetGeneratedKeysCall(target)];
      r := reply;
    }
  }
}
