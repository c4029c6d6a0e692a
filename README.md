# vite-serve-virtual: the request-dispatch core, in Dafny

vite-serve-virtual builds a Koa middleware for Vite's development server. The
middleware lets a caller-supplied `transform` answer requests for "virtual"
files, meaning paths with no file on disk. This project models what the
middleware does for one request, and proves what it promises.

- `js_values.dfy` (module `JsValues`): the JavaScript values that cross the
  boundary: `undefined`, `null`, booleans, numbers, strings, arrays and plain
  objects. It also models reading a property of a value, as object
  destructuring does, and the truthiness an `if` applies.
- `serve_virtual.dfy` (module `ServeVirtual`):
  - `EnsureTransformed` normalises the transform's result.
  - `ResolveTest` picks the request filter.
  - `Respond` is the per-request decision, as a pure function. It returns the
    new context, a trace of what the handler did, and how its promise settled.
  - `Context.Handle` is the same handler written imperatively: a method that
    assigns the properties of a mutable `Context` object in place. It is proved
    equal to `Respond`.
- `serve_virtual_properties.dfy` (module `ServeVirtualProperties`): lemmas that
  hold of `Respond` for every configuration, environment and context.

Each request's observable steps are recorded in order in a trace. The steps
are: the warning, the call of `transform`, the writes to `ctx.vue`, `ctx.type`
and `ctx.body`, and the call of `next`. Replaying the trace's writes on the old
context gives exactly the new one.

The surrounding world is given as parameters, in a datatype `Env`. Every
call into it either returns or throws, as a `Completion`:
- `resolver.requestToFile`, which may throw;
- `existsSync`, a predicate over paths that never throws;
- `statSync(file).isFile()`, which may throw, and is asked only when `existsSync`
  says yes (the `&&` at src/index.js:30 short-circuits);
- `createFilter` from `@rollup/pluginutils`, an uninterpreted function from the
  `include`/`exclude` options to a filter. Building the filter may throw, and
  so may applying it to an id.

The caller's `transform` and `test` likewise return a value or throw. The
handler takes the truthiness of the test's value.

Facts about `src/index.js` that the model keeps:
- There is no cache. The transform runs again on every request that it serves.
- `ensureTransformed` checks nothing. A result that is neither a string nor an
  object with `source` and `type` passes through unchanged. The handler then
  writes whatever the destructuring yields, `undefined` included.
  `OtherResultSetsType` covers results like `42`, `{}` or an array.
- The handler can reject in five ways: the resolver throws; the test throws
  (the default test rebuilds the filter on every request, so `createFilter`
  throwing counts here); `statSync` throws; the transform throws; or it
  returns `null` or `undefined`, so destructuring throws a `TypeError`. In
  every case the async handler's promise rejects, the context is not yet
  written, and `next` is never called. So "next is called exactly once" holds
  on every path that completes, and `NextCalledOnce` proves it as an
  if-and-only-if.
- A `test` option that is not a function, such as a RegExp, is silently
  ignored, and the include/exclude filter is used instead.

## Model

| member | source | states |
|---|---|---|
| `JsValues.Property` | src/index.js:35 | reading a property of a value that is not `null`/`undefined` gives the plain object's own field when it has one, and `undefined` otherwise |
| `JsValues.SourceAndType` | src/index.js:66 | the object literal `{ source, type }` reads back its `source` and its `type` |
| `ServeVirtual.EnsureTransformed` | src/index.js:65-67 | a string result becomes an object whose `source` is that string and whose `type` is `'js'`; every other value is returned unchanged; the result is never a bare string |
| `ServeVirtual.ResolveTest` | src/index.js:54-58 | an explicit test function is the resolved test itself; otherwise, on each call, the resolved test throws when `createFilter(include, exclude)` throws or its filter throws, and otherwise answers the filter's boolean for the id |
| `ServeVirtual.GetServeVirtual` | src/index.js:4-6 | the configured middleware keeps the caller's transform; its test is the explicit test function when there is one; otherwise, on each call, its test throws when `createFilter` throws on the configured patterns or the built filter throws, and otherwise answers the filter's boolean for the id |
| `ServeVirtual.Respond` | src/index.js:25-50 | the handler completes exactly when its trace ends with `next`; a rejected request leaves the context as it was; so does any request that is not served |
| `ServeVirtual.Context.Handle` | src/index.js:25-50 | assigning `ctx.vue`, `ctx.type` and `ctx.body` in place leaves the context as `Respond` says; it returns the same trace and settlement; the new context is the old one with the trace's writes replayed |
| `ServeVirtualProperties.EnsureTransformedIdempotent` | src/index.js:65-67 | normalising an already normalised result changes nothing |
| `ServeVirtualProperties.ExplicitTestIgnoresPatterns` | src/index.js:54-56 | with a test function, the resolved test does not depend on `include` or `exclude` (a corollary of `ResolveTest`'s first postcondition, stated as the precedence rule) |
| `ServeVirtualProperties.DefaultTestUsesFilter` | src/index.js:54-58 | configured without a test function: when `createFilter` throws, the handler rejects; otherwise the middleware claims a request exactly when the filter accepts the requested file |
| `ServeVirtualProperties.ExplicitTestDecides` | src/index.js:54-58 | configured with a test function, the middleware claims a request exactly when that function returns a truthy value for the file; when it throws, the handler rejects |
| `ServeVirtualProperties.UnclaimedRequestPassesThrough` | src/index.js:26-49 | a request the test declines leaves the context unchanged; the trace is just one `next` (no transform, no warning); the handler completes |
| `ServeVirtualProperties.ShadowedFileIsNotServed` | src/index.js:30-33 | a claimed request for an existing regular file leaves the context unchanged; the trace is the warning naming the file, then one `next`, with no transform call |
| `ServeVirtualProperties.StatOnlyAskedForExistingPaths` | src/index.js:30 | when `existsSync` says no, the outcome is the same whatever `statSync` would do |
| `ServeVirtualProperties.BareStringServedAsJs` | src/index.js:35-46 | a string from the transform is served as the body, with `ctx.type = 'js'` and `ctx.vue` untouched; the trace is the transform call, the two writes and `next` |
| `ServeVirtualProperties.VueResultMarksContext` | src/index.js:37-46 | a result of type `'vue'` sets `ctx.vue = true`, leaves `ctx.type` untouched and sets the body to the source |
| `ServeVirtualProperties.OtherResultSetsType` | src/index.js:37-46 | a result of any other type, `undefined` included, sets `ctx.type` to it, leaves `ctx.vue` untouched and sets the body to the source |
| `ServeVirtualProperties.ServedRequestOrder` | src/index.js:35-49 | the trace of a served request is exactly: the transform call, the write the `switch` picks for the result's type, the body write of its source, then `next` |
| `ServeVirtualProperties.RejectionCauses` | src/index.js:26-35 | each rejection cause, as an if-and-only-if: the resolver throws; the test throws; a claimed file exists and `statSync` throws; a served request's transform throws; or it returns `null`/`undefined` |
| `ServeVirtualProperties.NextCalledOnce` | src/index.js:25-50 | `next` is called exactly once exactly when the handler completes, never when it rejects, and is always the last step |
| `ServeVirtualProperties.TransformCalledOnlyWhenServing` | src/index.js:28-35 | the transform is called only with the requested file; it is called once when the request is served (claimed, and the existence check answers no), and otherwise not at all |
| `ServeVirtualProperties.TraceAccountsForContext` | src/index.js:25-50 | replaying the trace's writes on the old context gives the new context, so nothing else about the context changes |

## Left out

- Watcher wiring (src/index.js:10-22) and the `transformsOn` option: the code
  registers event callbacks that call an undefined `cachedRead`, build an unused
  timestamp and send an empty payload. Nothing of it is modelled.
- `existsSync`/`statSync`: file-system I/O, given as `Env.fileExists` and
  `Env.statIsFile`. The check is made on every claimed request, and the model
  asks each time.
- `console.warn`: log I/O, recorded as a `Warned` event carrying the exact
  message text.
- `createFilter`'s glob semantics: the library code is not part of this model.
  It is an uninterpreted function of the `include`/`exclude` values.
- Koa's property setters: `ctx.type` is stored as the assigned value. Koa's
  MIME lookup and header removal are not modelled, nor the status and
  content-type changes of the `ctx.body` setter.
- What `next` itself does (the downstream middleware), and a rejection coming
  from it: `next` is recorded as a single event.
- Promises: the transform is called without `await`. A Promise it returns is
  an object without `source`/`type`, so the `Record` case covers it. Async
  scheduling between requests is not modelled.
- Property access follows own fields of plain objects only. Getters, prototype
  chains, boxed `String` objects and function-valued results are not modelled.
- Collaborators' side effects: the user's test, the transform, the resolver and
  `createFilter` are functions of their arguments that return or throw. Any
  other effect they have, and which exception they throw, is not modelled.
- Numbers: JavaScript numbers are IEEE doubles, and integers stand in
  for them. NaN, fractions, symbols and BigInt are not modelled. No behaviour
  here depends on them: a number result destructures to `undefined`, and a
  number is never `'vue'`.
- Configuration errors: destructuring a `null` or `undefined` options object
  at src/index.js:5 throws a TypeError when the middleware is configured.
  `Options` is a record and cannot express that case; it lies outside the
  request handler.
- rollup.config.js: build configuration, with no logic to model.
