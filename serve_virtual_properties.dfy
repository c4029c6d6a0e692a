/**
  What the middleware promises, stated over `Respond` for every middleware,
  every environment and every context.
 */
module ServeVirtualProperties {
  import opened JsValues
  import opened ServeVirtual

  /** The trace never shows a call of the transform. */
  predicate NoTransform(events: seq<Event>) {
    forall i :: 0 <= i < |events| ==> !events[i].TransformCalled?
  }

  /** `next` is the last event of the trace, wherever it occurs. */
  predicate NextIsLast(events: seq<Event>) {
    forall i :: 0 <= i < |events| && events[i] == NextCalled ==> i == |events| - 1
  }

  /** Normalising twice is normalising once: a normalised result is never a bare string. */
  lemma EnsureTransformedIdempotent(v: JsValue)
    ensures EnsureTransformed(EnsureTransformed(v)) == EnsureTransformed(v)
  {
  }

  /**
    An explicit test function wins: the patterns it is configured beside are
    never consulted. A corollary of `ResolveTest`'s first postcondition, stated
    as the precedence rule it is.
   */
  lemma ExplicitTestIgnoresPatterns(f: Test, includes: JsValue, excludes: JsValue, includes': JsValue, excludes': JsValue)
    ensures ResolveTest(includes, excludes, FunctionTest(f)) == ResolveTest(includes', excludes', FunctionTest(f))
  {
  }

  /**
    Configured without a test function, the middleware builds the filter from
    `include` and `exclude` on each request: when that throws, the handler
    rejects; otherwise it claims exactly what the filter accepts.
   */
  lemma DefaultTestUsesFilter(options: Options, env: Env, ctx: Ctx, file: string)
    requires options.test.NonFunction? && FileOf(env, ctx) == Returned(file)
    ensures env.createFilter(options.includes, options.excludes).Raised? ==>
      Respond(GetServeVirtual(options), env, ctx).status == Rejected(TestThrew)
    ensures env.createFilter(options.includes, options.excludes).Returned? ==>
      (Claims(GetServeVirtual(options), env, ctx) <==>
         env.createFilter(options.includes, options.excludes).v(file) == Returned(true))
  {
  }

  /** Configured with a test function, the middleware claims exactly what that function answers truthily. */
  lemma ExplicitTestDecides(options: Options, env: Env, ctx: Ctx, file: string)
    requires options.test.FunctionTest? && FileOf(env, ctx) == Returned(file)
    ensures Claims(GetServeVirtual(options), env, ctx)
        <==> options.test.f(file, env.createFilter).Returned? && Truthy(options.test.f(file, env.createFilter).v)
    ensures options.test.f(file, env.createFilter).Raised? ==>
      Respond(GetServeVirtual(options), env, ctx).status == Rejected(TestThrew)
  {
  }

  /** A request the test declines leaves the context alone, skips the transform and calls `next` once. */
  lemma UnclaimedRequestPassesThrough(m: Middleware, env: Env, ctx: Ctx, file: string)
    requires FileOf(env, ctx) == Returned(file) && TestVerdict(m, env, file) == Returned(false)
    ensures Respond(m, env, ctx).ctx == ctx
    ensures Respond(m, env, ctx).events == [NextCalled]
    ensures Respond(m, env, ctx).status == Completed
  {
  }

  /**
    A claimed request for a path where a regular file exists is not served:
    the context is left alone, the transform is not called, a warning naming
    the file is logged, and then `next` is called once.
   */
  lemma ShadowedFileIsNotServed(m: Middleware, env: Env, ctx: Ctx)
    requires Shadowed(m, env, ctx)
    ensures Respond(m, env, ctx).ctx == ctx
    ensures Respond(m, env, ctx).events == [Warned(ShadowWarning(FileOf(env, ctx).v)), NextCalled]
    ensures Respond(m, env, ctx).status == Completed
  {
  }

  /** `existsSync` short-circuits the guard: for a path with no file, `statSync` cannot affect the request. */
  lemma StatOnlyAskedForExistingPaths(m: Middleware, env: Env, ctx: Ctx, file: string, stat: string -> Completion<bool>)
    requires FileOf(env, ctx) == Returned(file) && !env.fileExists(file)
    ensures Respond(m, env.(statIsFile := stat), ctx) == Respond(m, env, ctx)
  {
  }

  /** Replaying the writes of a served result: the type write, then the body write. */
  lemma ReplayWrites(c: Ctx, t: JsValue)
    requires !IsNullish(t)
    ensures Replay(c, Writes(t)) == Apply(Apply(c, TypeWrite(Property(t, "type"))), SetBody(Property(t, "source")))
  {
    var w := Writes(t);
    var c1 := Apply(c, w[0]);
    assert w[1..] == [w[1]] && [w[1]][1..] == [];
    assert Replay(c1, [w[1]]) == Replay(Apply(c1, w[1]), []);
  }

  /** A bare string from the transform is served as the body, with type `'js'`. */
  lemma BareStringServedAsJs(m: Middleware, env: Env, ctx: Ctx, s: string)
    requires Serves(m, env, ctx)
    requires m.transform(FileOf(env, ctx).v) == Returned(Text(s))
    ensures Respond(m, env, ctx).ctx == ctx.(contentType := Text("js"), body := Text(s))
    ensures Respond(m, env, ctx).events
         == [TransformCalled(FileOf(env, ctx).v), SetType(Text("js")), SetBody(Text(s)), NextCalled]
    ensures Respond(m, env, ctx).status == Completed
  {
    ReplayWrites(ctx, EnsureTransformed(Text(s)));
  }

  /** A result of type `'vue'` marks the context with `vue = true`, leaves its type alone and serves the source. */
  lemma VueResultMarksContext(m: Middleware, env: Env, ctx: Ctx, t: JsValue)
    requires Serves(m, env, ctx)
    requires Transformed(m, FileOf(env, ctx).v) == Returned(t) && !IsNullish(t)
    requires Property(t, "type") == Text("vue")
    ensures Respond(m, env, ctx).ctx == ctx.(vue := Bool(true), body := Property(t, "source"))
    ensures Respond(m, env, ctx).status == Completed
  {
    ReplayWrites(ctx, t);
  }

  /** A result of any other type, `undefined` included, becomes the context's type; `vue` is left alone. */
  lemma OtherResultSetsType(m: Middleware, env: Env, ctx: Ctx, t: JsValue)
    requires Serves(m, env, ctx)
    requires Transformed(m, FileOf(env, ctx).v) == Returned(t) && !IsNullish(t)
    requires Property(t, "type") != Text("vue")
    ensures Respond(m, env, ctx).ctx == ctx.(contentType := Property(t, "type"), body := Property(t, "source"))
    ensures Respond(m, env, ctx).status == Completed
  {
    ReplayWrites(ctx, t);
  }

  /** A served request calls the transform, writes the type, then the body, then calls `next`. */
  lemma ServedRequestOrder(m: Middleware, env: Env, ctx: Ctx, t: JsValue)
    requires Serves(m, env, ctx)
    requires Transformed(m, FileOf(env, ctx).v) == Returned(t) && !IsNullish(t)
    ensures Respond(m, env, ctx).events == [
      TransformCalled(FileOf(env, ctx).v),
      TypeWrite(Property(t, "type")),
      SetBody(Property(t, "source")),
      NextCalled]
  {
  }

  /**
    Each cause of rejection, exactly: the resolver throws; the test throws; a
    claimed file exists and `statSync` throws; or a served request's transform
    throws or returns `null` or `undefined`. Nothing checks the shape of any
    other result.
   */
  lemma RejectionCauses(m: Middleware, env: Env, ctx: Ctx)
    ensures Respond(m, env, ctx).status == Rejected(ResolverThrew) <==> FileOf(env, ctx).Raised?
    ensures Respond(m, env, ctx).status == Rejected(TestThrew)
        <==> FileOf(env, ctx).Returned? && TestVerdict(m, env, FileOf(env, ctx).v).Raised?
    ensures Respond(m, env, ctx).status == Rejected(StatThrew)
        <==> Claims(m, env, ctx) && RegularFile(env, FileOf(env, ctx).v).Raised?
    ensures Respond(m, env, ctx).status == Rejected(TransformThrew)
        <==> Serves(m, env, ctx) && m.transform(FileOf(env, ctx).v).Raised?
    ensures Respond(m, env, ctx).status == Rejected(DestructureTypeError)
        <==> Serves(m, env, ctx) && m.transform(FileOf(env, ctx).v).Returned?
             && IsNullish(m.transform(FileOf(env, ctx).v).v)
  {
  }

  /**
    `next` is called exactly once on every path that completes, never on a
    path that rejects, and it is always the last thing the handler does.
   */
  lemma NextCalledOnce(m: Middleware, env: Env, ctx: Ctx)
    ensures Respond(m, env, ctx).status == Completed <==> Count(Respond(m, env, ctx).events, NextCalled) == 1
    ensures Respond(m, env, ctx).status.Rejected? ==> Count(Respond(m, env, ctx).events, NextCalled) == 0
    ensures NextIsLast(Respond(m, env, ctx).events)
  {
    var o := Respond(m, env, ctx);
    if Serves(m, env, ctx) && Transformed(m, FileOf(env, ctx).v).Returned?
       && !IsNullish(Transformed(m, FileOf(env, ctx).v).v)
    {
      var file := FileOf(env, ctx).v;
      var writes := Writes(Transformed(m, file).v);
      CountAppend([TransformCalled(file)] + writes, [NextCalled], NextCalled);
      CountAppend([TransformCalled(file)], writes, NextCalled);
      assert Count(writes, NextCalled) == 0 by {
        assert writes[1..][1..] == [];
      }
    } else if Shadowed(m, env, ctx) {
      ShadowedFileIsNotServed(m, env, ctx);
      var rest := o.events[1..];
      assert rest == [NextCalled] && rest[1..] == [];
      assert Count(rest, NextCalled) == 1 + Count([], NextCalled);
    }
  }

  /**
    The transform is called only with the requested file, once, and exactly
    when the request is served: it is claimed and the existence check answers
    no (a `statSync` that throws rejects before the transform is reached).
   */
  lemma TransformCalledOnlyWhenServing(m: Middleware, env: Env, ctx: Ctx)
    ensures Serves(m, env, ctx) ==> Count(Respond(m, env, ctx).events, TransformCalled(FileOf(env, ctx).v)) == 1
    ensures forall i :: 0 <= i < |Respond(m, env, ctx).events| && Respond(m, env, ctx).events[i].TransformCalled?
              ==> FileOf(env, ctx) == Returned(Respond(m, env, ctx).events[i].id)
    ensures NoTransform(Respond(m, env, ctx).events) <==> !Serves(m, env, ctx)
  {
    var o := Respond(m, env, ctx);
    if Serves(m, env, ctx) && Transformed(m, FileOf(env, ctx).v).Returned?
       && !IsNullish(Transformed(m, FileOf(env, ctx).v).v)
    {
      var file := FileOf(env, ctx).v;
      var writes := Writes(Transformed(m, file).v);
      CountAppend([TransformCalled(file)] + writes, [NextCalled], TransformCalled(file));
      CountAppend([TransformCalled(file)], writes, TransformCalled(file));
      assert Count(writes, TransformCalled(file)) == 0 by {
        assert writes[1..][1..] == [];
      }
    } else if Shadowed(m, env, ctx) {
      ShadowedFileIsNotServed(m, env, ctx);
    }
  }

  /** The writes in the trace account for the whole new context: nothing else about it changes. */
  lemma TraceAccountsForContext(m: Middleware, env: Env, ctx: Ctx)
    ensures Replay(ctx, Respond(m, env, ctx).events) == Respond(m, env, ctx).ctx
  {
    var o := Respond(m, env, ctx);
    if Serves(m, env, ctx) && Transformed(m, FileOf(env, ctx).v).Returned?
       && !IsNullish(Transformed(m, FileOf(env, ctx).v).v)
    {
      var file := FileOf(env, ctx).v;
      var writes := Writes(Transformed(m, file).v);
      ReplayAppend(ctx, [TransformCalled(file)] + writes, [NextCalled]);
      ReplayAppend(ctx, [TransformCalled(file)], writes);
      assert Replay(ctx, [TransformCalled(file)]) == ctx;
      assert Replay(Replay(ctx, writes), [NextCalled]) == Replay(ctx, writes);
    } else if Shadowed(m, env, ctx) {
      ShadowedFileIsNotServed(m, env, ctx);
      var rest := o.events[1..];
      assert rest == [NextCalled] && rest[1..] == [];
      assert Replay(ctx, rest) == Replay(Apply(ctx, NextCalled), []);
      assert Replay(ctx, o.events) == Replay(Apply(ctx, o.events[0]), rest);
    }
  }
}
