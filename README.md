# typescript-rest: decorator metadata and the preprocessor chain

This project models two parts of the typescript-rest library in Dafny, as its own tests pin them down.

**Decorator metadata.** The annotations `@Path`, `@Security`, `@Preprocessor`, `@AcceptLanguage` and `@Accept` each work the same way:
- The annotation checks how it was applied: to a class, or to a method with its prototype, name and descriptor.
- It asks the server registry for the `ServiceClass` or `ServiceMethod` record of that class or method. The registry creates the record the first time and returns the same object every later time.
- It changes exactly one field of that record:
  - `@Path` sets `path`.
  - `@Security` appends to `roles`, with `*` for an empty or missing role.
  - `@Preprocessor` appends to `preProcessors`.
  - `@AcceptLanguage` appends to `languages` and drops falsey values.
  - `@Accept` appends to `accepts` and drops falsey values.
- Misuse throws `Invalid @<Name> Decorator declaration.`; in this model it then registers nothing (see "## Left out"). Misuse is a wrong argument count, an undefined preprocessor, or no truthy language or content type.

**The preprocessor chain.** A request to a service method goes through the class's preprocessors and then the method's, one after another. An asynchronous preprocessor is awaited before the next one starts. A preprocessor can mark the request or throw `BadRequestError`. The first throw ends the chain, and the client gets status 400 without the handler running. The integration test's service consists of:
- four preprocessors, `preprocessor1`, `preprocessor2`, `asyncPreprocessor1` and `asyncPreprocessor2`;
- two handlers, `test` and `asynctest`.

The model builds that service with the decorators and serves requests through the chain.

Modules:
- `Wrappers`: Option, Outcome (a call that may throw) and Result.
- `JsValues`: JavaScript values and truthiness, and `Compact`, which keeps the truthy values.
- `Preprocessors`: the request object as a class with four flag fields; the preprocessors as a specification function `Step`; and `Run`, which mutates the request.
- `Metadata`: the `ServiceClass` and `ServiceMethod` record classes, and the `Registry` class that hands them out and logs the registration calls.
- `Decorators`: the five decorators as methods that mutate the registry's records.
- `PreprocessorChain`: the chain as a fold (`Chain`) with its laws, the loop that runs it on a request (`RunChain`), and `Dispatch`.
- `PreprocessedService`: the integration test's service, built and served end to end.
- `DecoratorTests`: the unit test's situations, each on a fresh registry.

The source calls the asynchronous flags `asyncPreproocessor1` and `asyncPreproocessor2` (with a doubled `o`), consistently in the interface, the preprocessors and the handler. The model calls them `asyncPreprocessor1` and `asyncPreprocessor2`.

## Model

| member | source | states |
|---|---|---|
| JsValues.Compact | test/unit/decorators.spec.ts:202-208 | The kept values are all truthy, and there are no more of them than inputs. |
| JsValues.CompactMembers | test/unit/decorators.spec.ts:202-208 | A value is kept exactly when it is in the input and truthy. |
| JsValues.CompactAppend | test/unit/decorators.spec.ts:202-208 | Compacting a concatenation concatenates the compacted parts, so the kept values stay in order. |
| JsValues.CompactAll | test/unit/decorators.spec.ts:210-222 | An all-falsey list (such as `[undefined]` or `[]`) compacts to nothing. An all-truthy list is kept whole. |
| Preprocessors.StatusCode | test/integration/preprocessor.spec.ts:85-94 | The error a preprocessor throws is answered with a 4xx status; BadRequestError gives 400. |
| Preprocessors.StepFailsExactly | test/integration/preprocessor.spec.ts:35-55 | A preprocessor throws exactly when it is preprocessor1 and `valid` is falsey, or asyncPreprocessor1 and `asyncValid` is falsey. |
| Preprocessors.StepOnlyAddsItsFlag | test/integration/preprocessor.spec.ts:35-55 | A preprocessor that completes clears no flag and sets only its own. |
| Preprocessors.PreprocessedRequest.constructor | test/integration/preprocessor.spec.ts:57-62 | A new request carries the posted body and no flag. |
| Preprocessors.Run | test/integration/preprocessor.spec.ts:35-55 | Running a preprocessor in place matches Step. One that throws leaves every flag as it was, because each flag is set only after its check. |
| Metadata.ServiceClass.constructor | test/unit/decorators.spec.ts:39 | A new class record is empty and belongs to its class. |
| Metadata.ServiceMethod.constructor | test/unit/decorators.spec.ts:40 | A new method record is empty and belongs to its method. |
| Metadata.Registry.constructor | test/unit/decorators.spec.ts:28-45 | A new registry holds no record and has logged no call. |
| Metadata.Registry.Reset | test/unit/decorators.spec.ts:28-50 | After a reset the registry holds no record and has logged no call. |
| Metadata.Registry.EnsureClass | test/unit/decorators.spec.ts:28-45 | The class gets an empty record unless it has one. Existing records keep their identity, and no call is logged. |
| Metadata.Registry.RegisterServiceClass | test/unit/decorators.spec.ts:53-59 | Get-or-create: logs exactly one class call and returns the record filed under the class. The record is the same object as before if it existed, or a fresh empty one. No other record changes identity. |
| Metadata.Registry.RegisterServiceMethod | test/unit/decorators.spec.ts:61-68 | Get-or-create for a method: as for a class, and the method's class also gets a record if it had none. |
| Decorators.ApplyChangesOneField | test/unit/decorators.spec.ts:52-271 | An annotation changes only the field it is about. List fields only grow at their end. |
| Decorators.AnnotateClass | test/unit/decorators.spec.ts:52-271 | Mutating a class record in place gives the record Apply describes. |
| Decorators.AnnotateMethod | test/unit/decorators.spec.ts:52-271 | Mutating a method record in place gives the record Apply describes. |
| Decorators.DecorateClass | test/unit/decorators.spec.ts:53-59 | The class is registered once, its record changes by Apply, and every other site reads as before. |
| Decorators.DecorateMethod | test/unit/decorators.spec.ts:61-68 | The method is registered once, its record changes by Apply, and every other site reads as before. |
| Decorators.ApplyDecorator | test/unit/decorators.spec.ts:52-271 | Succeeds exactly on a class or method application with acceptable arguments. On failure it throws the decorator's message and changes nothing. On success it registers once, changes that record by Apply, and changes no other record. |
| Decorators.Path | test/unit/decorators.spec.ts:52-77 | `path` becomes the given path. Misuse throws `Invalid @Path Decorator declaration.` and changes nothing. Nothing else changes. |
| Decorators.Security | test/unit/decorators.spec.ts:80-138 | The roles are appended, with `*` for `''` or undefined. Misuse throws its message and changes nothing. |
| Decorators.Preprocessor | test/unit/decorators.spec.ts:141-174 | The preprocessor is appended. An undefined preprocessor or misuse throws `Invalid @Preprocessor Decorator declaration.` |
| Decorators.AcceptLanguage | test/unit/decorators.spec.ts:177-222 | The truthy languages are appended in order. No truthy language, or misuse, throws its message and changes nothing. |
| Decorators.Accept | test/unit/decorators.spec.ts:225-271 | The truthy content types are appended in order. No truthy type, or misuse, throws its message and changes nothing. |
| PreprocessorChain.Chain | test/integration/preprocessor.spec.ts:12-33 | A chain that ends without an error ran every preprocessor; one with an error ran fewer. Flags are never cleared. |
| PreprocessorChain.ChainAppend | test/integration/preprocessor.spec.ts:12-28 | Running the class's list and then the method's equals running their concatenation. An error in the first list means the second never starts. |
| PreprocessorChain.ChainStopsAtFirstRejection | test/integration/preprocessor.spec.ts:85-117 | The chain fails exactly when some preprocessor rejects the body. It stops at the first one that does, with BadRequestError, and every earlier one passed. |
| PreprocessorChain.ChainSetsFlagsOfCompleted | test/integration/preprocessor.spec.ts:35-55 | A flag is set afterwards exactly when it was set before or its preprocessor completed. The one that threw, and all later ones, leave no mark. |
| PreprocessorChain.RunChain | test/integration/preprocessor.spec.ts:12-33 | The loop over the request ends in the state Chain describes, with the same error and the same count. |
| PreprocessorChain.Dispatch | test/integration/preprocessor.spec.ts:74-118 | Runs the class's preprocessors, then the method's unless one threw. It answers the error's status, or the handler's result on the flags the whole chain leaves. |
| PreprocessedService.DecorateService | test/integration/preprocessor.spec.ts:12-14 | The class record gains path `preprocessor` and preprocessor1, and no other site changes. |
| PreprocessedService.DecorateTest | test/integration/preprocessor.spec.ts:18-23 | The `test` record gains path `test` and preprocessor2, and no other site changes. |
| PreprocessedService.DecorateAsyncPreprocessors | test/integration/preprocessor.spec.ts:27-28 | Applying line 28 and then line 27 appends `[asyncPreprocessor2, asyncPreprocessor1]` to the `asynctest` record, and no other site changes. |
| PreprocessedService.DecorateAsyncTest | test/integration/preprocessor.spec.ts:25-32 | The `asynctest` record gains path `asynctest` and `[asyncPreprocessor2, asyncPreprocessor1]`, in that order, and no other site changes. |
| PreprocessedService.BuildService | test/integration/preprocessor.spec.ts:12-33 | `test` goes through preprocessor1 and then preprocessor2. `asynctest` goes through preprocessor1 and then the two asynchronous ones. |
| PreprocessedService.ServeWith | test/integration/preprocessor.spec.ts:12-33 | A request to a handler is answered as the chain over the registry's preprocessors for it ends: the class's list followed by the method's, and the request keeps the flags that chain leaves. |
| PreprocessedService.ServeOutcomes | test/integration/preprocessor.spec.ts:74-118 | In either order of the asynchronous pair: only a body every preprocessor accepts reaches the handler, which returns true. Otherwise the answer is 400. An invalid body leaves no flag. `asynctest` never sees preprocessor2. |
| PreprocessedService.Serve | test/integration/preprocessor.spec.ts:74-118 | End to end: `{valid: true}` on `test`, and `{valid, asyncValid}` on `asynctest`, return true. `{}`, or a missing `asyncValid` on `asynctest`, gives 400 with the flags stated. |
| DecoratorTests.CompactWithFalseys | test/unit/decorators.spec.ts:202-208 | Of `(null, a, undefined, 0, false, b)` exactly `[a, b]` is kept, for non-empty strings. |
| DecoratorTests.PathTest | test/unit/decorators.spec.ts:53-68 | The class or `test` is registered exactly once, and its path is the given one. |
| DecoratorTests.SecurityTest | test/unit/decorators.spec.ts:81-129 | One role gives `[role]`. A list of roles is kept as given. `''` or undefined gives exactly `['*']`. Each is registered once. |
| DecoratorTests.PreprocessorTest | test/unit/decorators.spec.ts:145-174 | The record holds exactly the one preprocessor. An undefined one is refused with its message and, in this model, nothing is registered. |
| DecoratorTests.AcceptLanguageTest | test/unit/decorators.spec.ts:178-222 | Succeeds exactly when some language is truthy; the record then holds the truthy ones. Otherwise it throws its message and, in this model, nothing is registered. |
| DecoratorTests.AcceptLanguageCases | test/unit/decorators.spec.ts:178-222 | `'en'` is kept. `(null,'en',undefined,0,false,'pt')` keeps `['en','pt']`. `(undefined)` and `()` throw. |
| DecoratorTests.AcceptTest | test/unit/decorators.spec.ts:226-271 | Succeeds exactly when some content type is truthy; the record then holds the truthy ones. Otherwise it throws its message and, in this model, nothing is registered. |
| DecoratorTests.AcceptCases | test/unit/decorators.spec.ts:226-271 | JSON is kept. The falsey mix keeps JSON and XML. `(undefined)` and `()` throw. |
| DecoratorTests.MisuseTest | test/unit/decorators.spec.ts:70-77 | Each of the five decorators, given an extra fourth argument, throws its own message and, in this model, registers nothing (also lines 131-138, 162-167, 195-200 and 243-248). |
| DecoratorTests.SharedRecordTest | test/unit/decorators.spec.ts:28-45 | Two decorators on one class reach one record, which carries both changes. The class is registered once per decorator. |
| DecoratorTests.EffectivePreprocessorsTest | test/integration/preprocessor.spec.ts:12-28 | Whichever of class and method is decorated first, the method's request goes through the class's preprocessor and then the method's. |

## Left out

- The implementation files `src/decorators`, `src/metadata` and `src/server-container` are not part of this model. The behaviour follows what the tests assert about them.
- The sinon and proxyquire stubbing is left out. The stub's call history (`calledOnceWithExactly`, `calledOnce`) is modelled as the registry's log of registration calls. The stub always returns one preset record; the registry returns the record filed under the class or method.
- `@POST`, `@ContextRequest` and `Server.buildServices` are left out, apart from their role of giving a handler its request. No routing by HTTP verb or path is modelled; `Serve` picks the handler by endpoint.
- The express server, its port, `startApi`/`stopApi` and the HTTP client are I/O and are not modelled. The response is reduced to "the handler's boolean as the body" or "an error status".
- Promise scheduling is reduced to running each preprocessor to completion before the next one. The `asynctest` record comes out as `[asyncPreprocessor2, asyncPreprocessor1]` because the decorators are applied from line 28 upward and `@Preprocessor` appends; that appending is the model's reading, since the unit tests only show a list of length one (test/unit/decorators.spec.ts:149 and 158). Only `BuildService`, `ServeOutcomes` and `Serve` leave the order of the pair open, and their results hold in either order.
- JavaScript decorator syntax and evaluation order are not modelled. The service is built by applying decorators innermost first.
- test/integration/ioc.spec.ts is left out as a whole. It exercises the external typescript-ioc container.
- Numbers are integers, so `NaN`, which is also falsey, does not arise.
- JavaScript objects, arrays and fractional numbers are not values of `JsValue`, so a body such as `{valid: {}}` or `{valid: 0.5}` cannot be written. They are all truthy, so a body with one of them behaves like one with `true`.
- Nested arrays of languages or content types are not modelled. The tests do not show how the library treats them.
- Decorators.Security: a single role, `''` and undefined follow the tests. The tests do not show how a list is handled beyond being kept whole, so a list is appended as given, empty strings included.
- Decorators.ApplyDecorator: a refused decorator registering nothing is the model's choice. The tests assert only the thrown message; they do not show whether the library registers the class or method before it refuses an undefined preprocessor or a list with no truthy value.
- Metadata.Registry.RegisterServiceMethod: also creating the method's class record follows the library's design. The unit test's stub does not show it.
- PreprocessedService.BuildService: states the `asynctest` preprocessors only up to their order. This is deliberately weaker than `DecorateAsyncTest`, which gives `[asyncPreprocessor2, asyncPreprocessor1]`, because the integration test does not depend on the order.
- Error kinds other than BadRequestError, and their statuses, are not shown and are not modelled.
