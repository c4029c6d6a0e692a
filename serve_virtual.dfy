/**
  The request-dispatch core of vite-serve-virtual: a Koa middleware that lets a
  caller-supplied `transform` answer requests for files that do not exist on
  disk ("virtual" files).

  The world around the middleware is given as parameters: the resolver that
  maps a request path to a file, the file-system question "is there a regular
  file at this path", and `createFilter` from @rollup/pluginutils, whose glob
  semantics are left uninterpreted. Everything the handler does that can be
  observed is recorded, in order, as a trace of events.
 */
module ServeVirtual {
  import opened JsValues

  /** How a call into JavaScript ends: with a value, or by throwing. */
  datatype Completion<+T> = Returned(v: T) | Raised

  /** A filter built by `createFilter`, applied to an id. */
  type Filter = string -> Completion<bool>

  /** `createFilter(include, exclude)`: builds a filter, or throws on options it cannot use. */
  type FilterFactory = (JsValue, JsValue) -> Completion<Filter>

  /** A resolved test, called as `test({ id, createFilter })`; the handler only asks whether its value is truthy. */
  type Test = (string, FilterFactory) -> Completion<JsValue>

  /** The `test` option: a function, or any other value (absent, a RegExp, ...), which is ignored. */
  datatype TestOption = FunctionTest(f: Test) | NonFunction(v: JsValue)

  /** The options `getServeVirtual` reads (`transformsOn` only feeds the watcher, which is not modelled). */
  datatype Options = Options(
    transform: string -> Completion<JsValue>,
    includes: JsValue,
    excludes: JsValue,
    test: TestOption)

  /** The middleware as configured: the transform and the test resolved once, at configuration time. */
  datatype Middleware = Middleware(transform: string -> Completion<JsValue>, test: Test)

  /**
    The collaborators the handler consults on each request:
    `resolver.requestToFile`, `existsSync` (which answers and never throws),
    `statSync(file).isFile()` (which may throw) and `createFilter`.
   */
  datatype Env = Env(
    requestToFile: string -> Completion<string>,
    fileExists: string -> bool,
    statIsFile: string -> Completion<bool>,
    createFilter: FilterFactory)

  /** The part of Koa's `ctx` the handler reads (`path`) and writes (`vue`, `type`, `body`). */
  datatype Ctx = Ctx(path: string, vue: JsValue, contentType: JsValue, body: JsValue)

  /** The observable steps of one request, in the order they happen. */
  datatype Event =
    | Warned(message: string)
    | TransformCalled(id: string)
    | SetVue(v: JsValue)
    | SetType(v: JsValue)
    | SetBody(v: JsValue)
    | NextCalled

  /** Why a request rejected: the collaborator that threw, or a result that could not be destructured. */
  datatype Failure = ResolverThrew | TestThrew | StatThrew | TransformThrew | DestructureTypeError

  datatype Status = Completed | Rejected(failure: Failure)

  /** The end of one request: the new context, the trace of what happened, and how the handler's promise settled. */
  datatype Outcome = Outcome(ctx: Ctx, events: seq<Event>, status: Status)

  const TransformedType := Text("js")
  const VueType := Text("vue")

  /** The warning logged when a real file would be shadowed. */
  function ShadowWarning(file: string): (message: string) {
    "vite-serve-virtual: Cannot treat existing file " + file + " as virtual"
  }

  /**
    `ensureTransformed`: a bare string becomes `{ source, type: 'js' }`; every
    other value is passed on as it is, without any check of its shape.
   */
  function EnsureTransformed(input: JsValue): (r: JsValue)
    ensures IsString(input) ==>
      !IsNullish(r) && Property(r, "source") == input && Property(r, "type") == TransformedType
    ensures !IsString(input) ==> r == input
    ensures !IsString(r)
  {
    if IsString(input) then SourceAndType(input, TransformedType) else input
  }

  /** The default test's answer: the filter's boolean, or the throw of building or applying the filter. */
  function FilterVerdict(built: Completion<Filter>, id: string): (r: Completion<JsValue>) {
    match built
    case Raised => Raised
    case Returned(filter) =>
      match filter(id)
      case Raised => Raised
      case Returned(b) => Returned(Bool(b))
  }

  /**
    `resolveTest`: an explicit test function is used as it is; otherwise the
    test builds the filter with `createFilter(include, exclude)` on every call
    and applies it to the id.
   */
  function ResolveTest(includes: JsValue, excludes: JsValue, test: TestOption): (r: Test)
    ensures test.FunctionTest? ==> r == test.f
    ensures test.NonFunction? ==> forall id: string, createFilter: FilterFactory ::
      createFilter(includes, excludes).Raised? ==> r(id, createFilter) == Raised
    ensures test.NonFunction? ==> forall id: string, createFilter: FilterFactory ::
      createFilter(includes, excludes).Returned? ==>
        (r(id, createFilter).Raised? <==> createFilter(includes, excludes).v(id).Raised?)
    ensures test.NonFunction? ==> forall id: string, createFilter: FilterFactory ::
      createFilter(includes, excludes).Returned? && createFilter(includes, excludes).v(id).Returned? ==>
        r(id, createFilter) == Returned(Bool(createFilter(includes, excludes).v(id).v))
  {
    match test
    case FunctionTest(f) => f
    case NonFunction(_) =>
      (id: string, createFilter: FilterFactory) => FilterVerdict(createFilter(includes, excludes), id)
  }

  /** `getServeVirtual(required)`: keeps the transform and resolves the test once, when the middleware is configured. */
  function GetServeVirtual(options: Options): (m: Middleware)
    ensures m.transform == options.transform
    ensures options.test.FunctionTest? ==> m.test == options.test.f
    ensures options.test.NonFunction? ==> forall id: string, createFilter: FilterFactory ::
      createFilter(options.includes, options.excludes).Raised? ==> m.test(id, createFilter) == Raised
    ensures options.test.NonFunction? ==> forall id: string, createFilter: FilterFactory ::
      createFilter(options.includes, options.excludes).Returned? ==>
        (m.test(id, createFilter).Raised? <==> createFilter(options.includes, options.excludes).v(id).Raised?)
    ensures options.test.NonFunction? ==> forall id: string, createFilter: FilterFactory ::
      createFilter(options.includes, options.excludes).Returned?
      && createFilter(options.includes, options.excludes).v(id).Returned? ==>
        m.test(id, createFilter) == Returned(Bool(createFilter(options.includes, options.excludes).v(id).v))
  {
    Middleware(options.transform, ResolveTest(options.includes, options.excludes, options.test))
  }

  /** The file a request addresses, or the resolver's throw. */
  function FileOf(env: Env, ctx: Ctx): (file: Completion<string>) {
    env.requestToFile(ctx.path)
  }

  /** The condition of the `if (test(...))`: the truthiness of the test's value, or its throw. */
  function TestVerdict(m: Middleware, env: Env, file: string): (verdict: Completion<bool>) {
    match m.test(file, env.createFilter)
    case Raised => Raised
    case Returned(v) => Returned(Truthy(v))
  }

  /** `existsSync(file) && statSync(file).isFile()`: `statSync` is only asked when the file exists. */
  function RegularFile(env: Env, file: string): (found: Completion<bool>) {
    if env.fileExists(file) then env.statIsFile(file) else Returned(false)
  }

  /** Whether the middleware claims the request: the file resolves and the test accepts it. */
  predicate Claims(m: Middleware, env: Env, ctx: Ctx) {
    FileOf(env, ctx).Returned? && TestVerdict(m, env, FileOf(env, ctx).v) == Returned(true)
  }

  /** Whether a claimed request is refused because a regular file exists at that path. */
  predicate Shadowed(m: Middleware, env: Env, ctx: Ctx) {
    Claims(m, env, ctx) && RegularFile(env, FileOf(env, ctx).v) == Returned(true)
  }

  /** Whether a claimed request gets past the existence guard and is handed to the transform. */
  predicate Serves(m: Middleware, env: Env, ctx: Ctx) {
    Claims(m, env, ctx) && RegularFile(env, FileOf(env, ctx).v) == Returned(false)
  }

  /** The normalised transform result for `file`, or the transform's throw. */
  function Transformed(m: Middleware, file: string): (result: Completion<JsValue>) {
    match m.transform(file)
    case Returned(v) => Returned(EnsureTransformed(v))
    case Raised => Raised
  }

  /** The `switch (type)`: a `'vue'` type marks the context, any other value becomes the response type. */
  function TypeWrite(typ: JsValue): (e: Event) {
    if typ == VueType then SetVue(Bool(true)) else SetType(typ)
  }

  /** The effect of one event on the context: only the three writes change it. */
  function Apply(c: Ctx, e: Event): (c': Ctx) {
    match e
    case SetVue(v) => c.(vue := v)
    case SetType(v) => c.(contentType := v)
    case SetBody(v) => c.(body := v)
    case _ => c
  }

  /** The context after the writes of a trace, applied in order. */
  function Replay(c: Ctx, events: seq<Event>): (c': Ctx)
    decreases |events|
  {
    if events == [] then c else Replay(Apply(c, events[0]), events[1..])
  }

  /** How many times `e` occurs in a trace. */
  function Count(events: seq<Event>, e: Event): (n: nat)
    decreases |events|
  {
    if events == [] then 0 else (if events[0] == e then 1 else 0) + Count(events[1..], e)
  }

  /** The writes a normalised, destructurable result makes, in the handler's order. */
  function Writes(t: JsValue): (writes: seq<Event>)
    requires !IsNullish(t)
  {
    [TypeWrite(Property(t, "type")), SetBody(Property(t, "source"))]
  }

  /** The part of the handler after the existence guard: transform, destructure, write, `next`. */
  function Serve(m: Middleware, ctx: Ctx, file: string): (o: Outcome) {
    match Transformed(m, file)
    case Raised =>
      Outcome(ctx, [TransformCalled(file)], Rejected(TransformThrew))
    case Returned(t) =>
      if IsNullish(t) then
        Outcome(ctx, [TransformCalled(file)], Rejected(DestructureTypeError))
      else
        var writes := Writes(t);
        Outcome(Replay(ctx, writes), [TransformCalled(file)] + writes + [NextCalled], Completed)
  }

  /**
    One request through the middleware (the `app.use` handler): the request is
    resolved to a file and tested; an unclaimed request goes straight to
    `next`; a claimed request for an existing regular file is warned about and
    goes to `next`; otherwise the transform runs, its result is normalised and
    destructured, the type and the body are written, and `next` runs last.
    Whatever throws on the way (the resolver, the test, `statSync`, the
    transform, or destructuring `null`/`undefined`) rejects the handler's
    promise before `next` is reached, with the context not yet written.
   */
  function Respond(m: Middleware, env: Env, ctx: Ctx): (r: Outcome)
    ensures r.status == Completed <==> |r.events| > 0 && r.events[|r.events| - 1] == NextCalled
    ensures r.status.Rejected? ==> r.ctx == ctx
    ensures !Serves(m, env, ctx) ==> r.ctx == ctx
  {
    match FileOf(env, ctx)
    case Raised => Outcome(ctx, [], Rejected(ResolverThrew))
    case Returned(file) =>
      match TestVerdict(m, env, file)
      case Raised => Outcome(ctx, [], Rejected(TestThrew))
      case Returned(claimed) =>
        if !claimed then
          Outcome(ctx, [NextCalled], Completed)
        else
          match RegularFile(env, file)
          case Raised => Outcome(ctx, [], Rejected(StatThrew))
          case Returned(shadowed) =>
            if shadowed then
              Outcome(ctx, [Warned(ShadowWarning(file)), NextCalled], Completed)
            else
              Serve(m, ctx, file)
  }

  /** Replaying a trace in two pieces is replaying it whole. */
  lemma {:induction false} ReplayAppend(c: Ctx, a: seq<Event>, b: seq<Event>)
    ensures Replay(c, a + b) == Replay(Replay(c, a), b)
    decreases |a|
  {
    if a == [] {
      assert a + b == b;
    } else {
      assert (a + b)[1..] == a[1..] + b;
      ReplayAppend(Apply(c, a[0]), a[1..], b);
    }
  }

  /** Counting over two pieces of a trace adds up. */
  lemma {:induction false} CountAppend(a: seq<Event>, b: seq<Event>, e: Event)
    ensures Count(a + b, e) == Count(a, e) + Count(b, e)
    decreases |a|
  {
    if a == [] {
      assert a + b == b;
    } else {
      assert (a + b)[1..] == a[1..] + b;
      CountAppend(a[1..], b, e);
    }
  }

  /** Koa's `ctx`, whose properties the handler assigns in place. */
  class Context {
    const path: string
    var vue: JsValue
    var contentType: JsValue
    var body: JsValue

    constructor (path: string, vue: JsValue, contentType: JsValue, body: JsValue)
      ensures Snapshot() == Ctx(path, vue, contentType, body)
    {
      this.path := path;
      this.vue := vue;
      this.contentType := contentType;
      this.body := body;
    }

    /** The current values of the context's properties. */
    function Snapshot(): (c: Ctx)
      reads this
    {
      Ctx(path, vue, contentType, body)
    }

    /** Records `e` and performs its write, keeping the context equal to the replayed trace. */
    method Perform(e: Event, ghost start: Ctx, events: seq<Event>) returns (events': seq<Event>)
      requires Snapshot() == Replay(start, events)
      modifies this
      ensures events' == events + [e]
      ensures Snapshot() == Apply(old(Snapshot()), e)
      ensures Snapshot() == Replay(start, events')
    {
      match e {
        case SetVue(v) => vue := v;
        case SetType(v) => contentType := v;
        case SetBody(v) => body := v;
        case _ =>
      }
      events' := events + [e];
      ReplayAppend(start, events, [e]);
      assert Replay(Apply(Replay(start, events), e), []) == Apply(Replay(start, events), e);
    }

    /**
      The `app.use` handler run on this context: it assigns the context's
      properties in place and returns the trace and how its promise settled,
      both as `Respond` describes them.
     */
    method Handle(m: Middleware, env: Env) returns (events: seq<Event>, status: Status)
      modifies this
      ensures Snapshot() == Respond(m, env, old(Snapshot())).ctx
      ensures events == Respond(m, env, old(Snapshot())).events
      ensures status == Respond(m, env, old(Snapshot())).status
      ensures Snapshot() == Replay(old(Snapshot()), events)
    {
      ghost var start := Snapshot();
      events := [];
      var resolved := env.requestToFile(path);
      if resolved.Raised? {
        return events, Rejected(ResolverThrew);
      }
      var file := resolved.v;
      var verdict := m.test(file, env.createFilter);
      if verdict.Raised? {
        return events, Rejected(TestThrew);
      }
      if !Truthy(verdict.v) {
        events := Perform(NextCalled, start, events);
        return events, Completed;
      }
      if env.fileExists(file) {
        var isFile := env.statIsFile(file);
        if isFile.Raised? {
          return events, Rejected(StatThrew);
        }
        if isFile.v {
          events := Perform(Warned(ShadowWarning(file)), start, events);
          events := Perform(NextCalled, start, events);
          return events, Completed;
        }
      }
      events := Perform(TransformCalled(file), start, events);
      var result := m.transform(file);
      if result.Raised? {
        return events, Rejected(TransformThrew);
      }
      var t := EnsureTransformed(result.v);
      if IsNullish(t) {
        return events, Rejected(DestructureTypeError);
      }
      var typ, source := Property(t, "type"), Property(t, "source");
      if typ == VueType {
        events := Perform(SetVue(Bool(true)), start, events);
      } else {
        events := Perform(SetType(typ), start, events);
      }
      events := Perform(SetBody(source), start, events);
      events := Perform(NextCalled, start, events);
      ghost var writes := Writes(t);
      assert events == [TransformCalled(file)] + writes + [NextCalled];
      ReplayAppend(start, [TransformCalled(file)], writes);
      assert Replay(start, [TransformCalled(file)]) == start;
      status := Completed;
    }
  }
}
