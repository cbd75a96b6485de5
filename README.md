# Check construct of the Checkly CLI, in Dafny

This project models the base `Check` construct of the Checkly CLI
(`packages/cli/src/constructs/check.ts`). A check is a monitoring check that
the user declares in code. The construct does four things:

- **Default merge.** `applyDefaultCheckConfig` merges the session's check
  defaults into the caller's properties object, in place, key by key with `??`.
- **Construction.** The constructor copies the merged properties into the
  instance's fields. It makes `environmentVariables` and `alertChannels`
  empty lists when they are absent. It records the session's check file path.
- **Subscriptions.** `addSubscriptions` registers one alert channel
  subscription per alert channel. Each subscription's logical id is
  `check-alert-channel-subscription#<check id>#<channel id>`.
- **Synthesis.** `synthesize` projects the fields into the record that is
  sent to the deploy endpoint. The file path appears twice, as
  `__checkFilePath` and as `sourceFile`.

Files:

- `values.dfy` (module `JsValues`): the JavaScript values a properties object
  holds, `undefined`/`null` ("nullish"), falsiness, and `??` next to `||`.
- `constructs.dfy` (module `Constructs`): the collaborators whose code is not
  part of this model. The `Session` is passed in explicitly as a value. The
  project's construct registry is a class whose `resources` sequence grows by
  one entry per construct created.
- `check.dfy` (module `Checks`): the check itself.
  - The merge is a specification function, `MergedProps`. The in-place loop
    `Check.ApplyDefaultCheckConfig` is proved to compute it.
  - `Check` is a class with the source's fields.
  - `AddSubscriptions` is a loop proved against `SubscriptionsFor`.
  - `Synthesize` is a function that reads the instance.
  - A few client methods show end-to-end behaviour.

A properties object is a `PropsObject` whose `entries` map string keys to
values. A key counts as absent when it is missing or holds `undefined` or
`null`. Reading a missing key gives `undefined`, as in JavaScript. When the
merge fills a key that is missing from the properties but whose default is
`undefined`, the key is created holding `undefined`, as the assignment at
line 112 does.

The instance fields have the typed shape of the TypeScript declarations. To
read them, the properties and the defaults must have the shapes that the
types `CheckProps` and the configuration defaults give each key
(`Conforms`). This is the only precondition. `name` may be absent. Keys
outside `CheckProps` may hold anything, and the merge copies them too.

The model follows what the code does, not what its comments or types suggest:

- A missing `name` after the merge is not an error (line 84 has only a TODO).
- The logical id is not checked to be non-empty.
- The synthesized record has no alert channels. They are deployed as
  subscriptions (lines 96-97).

## Model

| member | source | states |
|---|---|---|
| `JsValues.Coalesce` | packages/cli/src/constructs/check.ts:111 | `a ?? b` is `a` when `a` is neither `undefined` nor `null`, else `b`; the result is nullish exactly when both are |
| `JsValues.CoalesceDiffersFromOr` | packages/cli/src/constructs/check.ts:111 | `??` and the logical or give different results exactly when the left value is falsy but present (`false`, `0`, `''`) and differs from the fallback |
| `Checks.MergedProps` | packages/cli/src/constructs/check.ts:105-113 | with no session defaults the properties are returned unchanged; otherwise the keys are the union of both key sets, every key of the defaults holds its own value `??` the default, every other key keeps its value, and properties and defaults of the right shapes merge to properties of the right shapes |
| `Checks.Check.ApplyDefaultCheckConfig` | packages/cli/src/constructs/check.ts:105-114 | the in-place `for...in` loop over the defaults' keys leaves the caller's properties object equal to `MergedProps` of its old contents |
| `Checks.MergedRead` | packages/cli/src/constructs/check.ts:110-113 | after the merge, reading a key of the defaults gives the old value `??` the default; reading any other key, even a missing one, gives what it gave before |
| `Checks.PresentValuesSurvive` | packages/cli/src/constructs/check.ts:111 | a present value, including `false`, `0` and `''`, is never replaced by a default, though the logical or would replace a falsy one |
| `Checks.MergeIdempotent` | packages/cli/src/constructs/check.ts:110-113 | merging the same defaults twice gives the same properties as merging them once |
| `Checks.FieldsFit` | packages/cli/src/constructs/check.ts:9-60 | in properties of the right shapes (`Conforms`, over the key-to-type table `KindOf` that transcribes the `CheckProps` declarations), every `CheckProps` key holds a value of its declared type or nothing |
| `Checks.Check.constructor` | packages/cli/src/constructs/check.ts:81-103 | registers the check under type `checks`; leaves the caller's properties merged; every field equals the merged property; `environmentVariables` and `alertChannels` are always present, equal to the given lists or empty; the file path is the session's |
| `Checks.NameMayStayMissing` | packages/cli/src/constructs/check.ts:84 | for any properties and session, a check built with no `name` in its properties or in the defaults is accepted and its `name` stays absent |
| `Checks.SubscriptionIdRoundTrip` | packages/cli/src/constructs/check.ts:121 | when the check id holds no `#`, parsing a subscription id gives back the check id and the channel id |
| `Checks.SubscriptionIdInjective` | packages/cli/src/constructs/check.ts:121 | for check ids without `#`, different (check, channel) pairs get different subscription ids |
| `Checks.SubscriptionIdAmbiguous` | packages/cli/src/constructs/check.ts:121 | ids are joined without escaping, so check `a#b` with channel `c` and check `a` with channel `b#c` get the same id |
| `Checks.SubscriptionFor` | packages/cli/src/constructs/check.ts:121-125 | a subscription has the composite id, refers to the channel and the check by their logical ids, and is activated |
| `Checks.SubscriptionsForAt` | packages/cli/src/constructs/check.ts:120-126 | the entries for a channel list are one per channel, in list order: the i-th is the subscription to the i-th channel |
| `Checks.SubscriptionIdsDistinct` | packages/cli/src/constructs/check.ts:120-126 | channels with distinct ids get subscriptions with distinct ids, when the check id holds no `#` |
| `Checks.Check.AddSubscriptions` | packages/cli/src/constructs/check.ts:116-127 | registers nothing when `alertChannels` is absent, else appends exactly the subscriptions for the channel list to the registry; the check is not modified |
| `Checks.TwoChannelSubscriptionIds` | packages/cli/src/constructs/check.ts:120-126 | the subscriptions of check `api-check` to channels `email` and `slack` are exactly two, with ids `check-alert-channel-subscription#api-check#email` and `check-alert-channel-subscription#api-check#slack` |
| `Checks.SubscribeTwoChannels` | packages/cli/src/constructs/check.ts:116-126 | a check `api-check` with channels `email` and `slack` registers exactly two subscriptions, with ids `check-alert-channel-subscription#api-check#email` and `check-alert-channel-subscription#api-check#slack` |
| `Checks.NoChannelsNoSubscriptions` | packages/cli/src/constructs/check.ts:95-126 | a check given no alert channels registers no subscriptions |
| `Checks.SubscribeTwice` | packages/cli/src/constructs/check.ts:116-127 | calling `addSubscriptions` twice on a check registers its subscriptions twice, so each subscription id is registered twice: the operation is not idempotent |
| `Checks.Check.Synthesize` | packages/cli/src/constructs/check.ts:129-146 | the record holds every property field as it stands on the instance, without alert channels, and both `__checkFilePath` and `sourceFile` equal the instance's file path; reading the instance changes nothing |
| `Checks.SynthesizeNewCheck` | packages/cli/src/constructs/check.ts:81-146 | a check built from properties in a session synthesizes to the merged properties: each field is the caller's value when present and the default otherwise, environment variables are always present, and both path fields are the session's check file path |

## Left out

- `sdk/api/modules/projects.js` is not part of this model. It is an HTTP client whose functions only build paths and call the transport.
- `examples/advanced-project/checkly.config.ts` is not part of this model. It is a static configuration literal.
- The code of `Ref`, `Construct`, `AlertChannel`, `AlertChannelSubscription`, `EnvironmentVariable`, `Session` and the configuration defaults type is not part of this model.
  - A `Ref` is a value wrapping a logical id.
  - An alert channel is reduced to its logical id.
  - An environment variable is reduced to a key and a value.
  - Creating a construct appends what the registry learns about it to a sequence: type and logical id for the check, the subscription's id and properties for a subscription. The registered object itself is not modelled.
- The session is a parameter, not process-wide state.
- Values that do not match the TypeScript types are not modelled. Plain JavaScript could pass them at run time.
- Aliasing is not modelled. The fields share the caller's arrays in the source. The merge also stores the session defaults' own array objects into the properties (lines 111-112), so every check that takes, say, `locations` from the defaults shares one array with every other such check. The model copies values.
- The `for...in` loop visits keys in insertion order. The model visits them in an arbitrary order. Each key is handled on its own, so the result is the same.
- `frequency` is a real number; JavaScript's `NaN` and infinities are not modelled.
- JSON serialization of the synthesized record is not modelled. This includes dropping `undefined` keys and key order.
