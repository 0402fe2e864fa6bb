# hof-emailer, modelled in Dafny

A model of the two pieces of deterministic logic in hof-emailer, a thin layer
that renders two HTML variants of a form submission ("formatted" and "raw")
and mails them to a caseworker and to a customer.

- **The SES transport's settings shaping** (`ses.dfy`, module `SesTransport`).
  A loose options object becomes `{transport, options}`. The two credentials
  are always copied, even when `undefined`. `sessionToken`, `region` and
  `httpOptions` are copied only when truthy. `rateLimit` and `maxConnections`
  are copied whenever they are not `undefined`, so `0` and `false` survive.
  `BuildSettings` builds the map key by key, as the source does; it is proved
  equal to the declarative rule `SesOptions`, about which the lemmas are stated.
- **The email service** (`email_service.dfy`, module `Service`). The class
  `EmailService` holds the allow-listed transport options, the stored
  submission data, the subject, both addresses and the per-role intro and
  outro tables. `Create` models `new EmailService(options)`: it checks for the
  options first and the data second, assigns the fields, and prepends the
  "Submission Date" field to the first page group unless `includeDate` is
  `false`. `SendEmail` and `SendEmails` model the promise compositions as
  functions. Each returns the transport sends it issued, the log lines it wrote
  and how its promise settled.
- **JavaScript values** (`js_values.dfy`, module `JsValues`). Values keep
  `undefined` apart from `null`, `false`, `0` and `""`, so truthiness tests and
  `!== undefined` tests can be stated exactly.
- **Callbacks and promises** (`promises.dfy`, module `Promises`). `Settle`
  turns a Node-style `(err, value)` callback into a settled promise, and `All2`
  models `Promise.all` over two promises.

The template engine and the mail transport are parameters. Each is a function
from a request to the `(err, value)` pair its callback would receive. The
clock is a parameter too: `Create` takes the UTC time string.

The SES function copies `sessionToken`, `region` and `httpOptions` only when
they are truthy, so `""` or `0` there is dropped. It copies `rateLimit` and
`maxConnections` whenever they are not `undefined`. `sendEmail` never checks
its destination address, and the model does not require one.

## Model

| member | source | states |
|---|---|---|
| `SesTransport.BuildSettings` | transports/ses.js:5-39 | Building the settings key by key, with the source's five conditional copies, gives exactly `SesSettings(options)`. |
| `SesTransport.SesOptions` | transports/ses.js:11-34 | The inner options hold only the seven named keys, each with the input's value unchanged. |
| `SesTransport.SesSettings` | transports/ses.js:7-38 | The returned object has exactly the keys `transport`, holding the SES module, and `options`, holding the shaped options. |
| `SesTransport.CredentialsAlwaysCopied` | transports/ses.js:11-14 | `accessKeyId` and `secretAccessKey` are always present and equal the input, even when the input leaves them `undefined`. |
| `SesTransport.TruthyKeysCopied` | transports/ses.js:16-26 | `sessionToken`, `region` and `httpOptions` are each present iff the input value is truthy, and then unchanged. |
| `SesTransport.DefinedKeysCopied` | transports/ses.js:28-34 | `rateLimit` and `maxConnections` are each present iff the input is not `undefined` (so `0` and `false` are kept), and then unchanged. |
| `SesTransport.NoUndefinedOptionalKeys` | transports/ses.js:16-34 | No optional setting is ever present with the value `undefined`. |
| `SesTransport.OnlyNamedKeysMatter` | transports/ses.js:11-36 | Two inputs that agree on the seven named keys give equal settings, whatever other keys they carry. |
| `SesTransport.RegionOnlyExample` | transports/ses.js:5-39 | Credentials plus a region give exactly those three options. The settings hold no `sessionToken`, `httpOptions`, `rateLimit` or `maxConnections` key at all. |
| `Promises.Settle` | lib/email-service.js:104-109 | A callback settles its promise as rejected with `err` exactly when `err` is truthy, and otherwise as resolved with the value. |
| `Promises.All2` | lib/email-service.js:59-62 | `Promise.all` over two promises resolves iff both resolve, with the array of both values in order. Otherwise it rejects with the reason of one that rejected. |
| `Service.Pick` | lib/email-service.js:17-25 | A key is in the picked map iff it is on the list and in the options. Its value is unchanged, and every other key is dropped. |
| `Service.RoleTable` | lib/email-service.js:35-42 | The intro and outro tables have exactly the keys `customer` and `caseworker`. |
| `Service.RoleLookup` | lib/email-service.js:99-103 | Looking up `customer` or `caseworker` in a table gives that role's text. Any other role gives `undefined`. |
| `Service.DateField` | lib/email-service.js:91-94 | The prepended field is an object with exactly the keys `label` and `value`: the label "Submission Date" and the given time string. |
| `Service.WithDateField` | lib/email-service.js:90-95 | The date can be prepended iff the data is a non-empty array whose first group has a `fields` array (array-like objects are outside the model, see below). When it can, the first group's fields become the date field followed by the old fields. The number of groups, the other groups and the first group's other properties are unchanged. |
| `Service.DateFieldGrowsFirstGroup` | lib/email-service.js:90-95 | The first group's fields grow by exactly one. The first field is labelled "Submission Date", and the old fields follow in their old order. |
| `Service.DateOnlyInCopy` | lib/email-service.js:31 | The dated data always differs from the data it was made from, so the caller's data never carries the date. |
| `Service.DateExample` | lib/email-service.js:90-95 | One page with one "Name" field becomes one page with the date field and then the "Name" field. |
| `Service.EmailService.constructor` | lib/email-service.js:17-42 | The stored transport options are the allow-listed pick. The data, the addresses and the subject are the option values. The intro and outro tables map each role to its option. |
| `Service.EmailService.Create` | lib/email-service.js:12-48 | Falsy options throw "No options provided" whatever the data. Truthy options with falsy data throw "No data provided". With both present, a service is built iff `includeDate` is `false` or the date can be prepended; otherwise a TypeError is thrown. The stored data equals the input when `includeDate` is `false` and is the dated copy otherwise. |
| `Service.EmailService.IncludeDate` | lib/email-service.js:90-95 | Succeeds iff the stored data has a first group with a `fields` array. It then replaces the data by its dated form, and otherwise leaves the data unchanged. |
| `Service.EmailService.Context` | lib/email-service.js:97-103 | The render context holds the given data and the role's entry in the intro and outro tables, or `undefined` for a role the tables lack. |
| `Service.EmailService.ContextForRole` | lib/email-service.js:35-42 | For a service built from `options`, the customer's context carries `customerIntro` and `customerOutro`, and the caseworker's carries `caseworkerIntro` and `caseworkerOutro`. Any other role gets `undefined` for both. |
| `Service.EmailService.SendEmail` | lib/email-service.js:57-75 | At most one transport send. It is issued iff both renders succeed, with the address, the stored subject and the bodies `[formatted, raw]` in that order. A failed render rejects with its error, sends nothing and logs nothing. After a send, the promise rejects with the transport error when it is truthy and otherwise resolves with the delivery info, logging one line either way. Both renders use the role's intro and outro and the given data. |
| `Service.EmailService.SendEmails` | lib/email-service.js:50-55 | The caseworker's and the customer's dispatches both run on the stored data. The sends and log lines are theirs together, at most two sends, all with the stored subject, each to one of the two stored addresses. The result resolves iff both resolve, with `[caseworkerResult, customerResult]`. Otherwise it rejects with one of the two failures. |

## Left out

- `_initApp` (lib/email-service.js:77-84) is left out. That covers the Express app, the Hogan view engine, the scan of the partials directory and the filesystem paths. The renderer is a parameter and already knows the partials, so `RenderContext` has no `partials` field.
- `_initEmailer` and `./emailer` (lib/email-service.js:9, 86-88) are left out. `./emailer` is not part of this model. The transport is a parameter, and `emailerOptions` is stored but not passed anywhere.
- The `nodemailer-ses-transport` module is the opaque value `SES_MODULE`.
- The clock and `toUTCString` formatting are left out. `Create` receives the time string as `stamp`.
- Console output is left out. The two log lines become `LogEvent` values in the dispatch record.
- Timing is not modelled. When both renders or both recipients fail, the source reports whichever failure came first in time. The model reports the formatted render and the caseworker. The contracts of `Promises.All2`, `SendEmail` and `SendEmails` promise only "one of the failures". The order of sends in `SendEmails`' record is caseworker then customer, which the source does not guarantee.
- `_.cloneDeep` has no counterpart. Dafny values cannot be shared, so the stored data is already independent of the caller's. The model does not capture the sharing `_.cloneDeep` keeps inside the copy: if one group object appears twice in the data, the source dates both.
- `_includeDate` changes the first group's array in place. `IncludeDate` replaces the stored data value by its updated form. One field of one object changes either way.
- Array-like submission data is left out. `_.first` also takes element `0` of a non-array object with a truthy `length`, so the source would date `{0: {fields: []}, length: 1}`. The model reports a TypeError for it. Only real arrays of groups are modelled.
- Renderers and transports that throw or never answer are left out. The `Renderer` and `Transport` parameters always answer exactly once. In the source, a synchronous throw from the transport's `sendEmail` is caught at lib/email-service.js:73: the promise rejects with the thrown value and nothing is logged. A callback that never fires leaves the `sendEmail` promise, and so the `sendEmails` result, pending forever.
- JavaScript numbers are integers here. NaN, fractions and `-0` are not modelled.
- Property lookup ignores the prototype chain and getters. For example, the role `toString` reads `undefined` here, though the source would find `Object.prototype.toString`. `_.pick` likewise sees only own keys.
- Objects with their own `unshift` property are left out. `fields` must be a real array for the date to be prepended; any other value reads as the TypeError.
- The source's option lookups throw when `options` is `null` or `undefined`. The SES function takes an object, so the model does not cover that crash.
- Errors thrown by `_initApp` or `_initEmailer` during construction are left out.
- `_.pick` runs before the data check in the source. The pick has no visible effect, so `Create` checks both first and then assigns.
