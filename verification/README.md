# QuickAI plan-and-quota gate in Dafny

QuickAI is a web service that generates articles, blog titles and images, removes
image backgrounds and objects, and reviews resumes. Almost all of it forwards
requests to third-party services. The one piece of its own logic is the gate
in front of those services. This project models that gate:

- **The `auth` middleware** (`Auth`). It asks the identity provider whether the
  user has the exclusive plan and sets `req.plan` to `Exclusive` or `Free`. It
  keeps the stored `free_usage` counter of a free user whose counter is truthy,
  meaning present and non-zero. For everyone else it writes 0 back to the store.
  It then hands the plan and the counter to the handler as `req.free_usage`.
  If the lookup or the write throws, it answers `{success: false, message}` and
  does not call `next()`.
- **The six AI handlers** (`AiController`).
  - Article and blog-title generation reject a free user whose counter is 10
    or more. Otherwise they generate, insert a row into `creations`, and for a
    free user write `free_usage + 1` back. Each step happens only if the one
    before it returned.
  - Image generation, background removal, object removal and resume review
    serve exclusive users only. Resume review also refuses files over
    5 MB = 5242880 bytes.
- **The two stores** (`Backend.Store`): the identity provider's counter per
  user (`map<UserId, nat>`) and the append-only `creations` table
  (`seq<Creation>`). The middleware and the handlers update them in place.
- **Requests in sequence** (`Pipeline`): the middleware and then a handler,
  over any run of requests.

Every call into an outside service is a parameter of type `Call<T>`. It either
returns a value or throws an error with a message. This covers the language
model, the image API, the media host's upload, the SQL insert, and the
identity provider's lookup and update. The model therefore holds for every
possible reply.

Each handler is written twice. A pure step function maps the stored state to
the next state and the response, and carries the properties. A method performs
the same steps on a `Backend.Store` and is proved to end in exactly the state
and response of its step function.

Behaviour that is modelled as the code has it:

- The article handler's limit rejection is `{sucess: false, message}`. The key
  is misspelt, so the response has no `success` field.
- Background removal, object removal and resume review reject a non-exclusive
  user by calling `res.join`, which does not exist
  (`server/controllers/aiController.js:159`, `:190`, `:219`). The resulting TypeError is
  caught, and the user gets `{success: false, message: "res.join is not a
  function"}`. It is still a rejection with no side effects.
- A missing upload (`req.file`) or object name makes the handler read a
  property of `undefined`. The catch block answers with the TypeError's
  message. A missing object name is only noticed after the image was uploaded.

The middleware and the handlers also do the following, and the model keeps it:

- The middleware writes 0 over an exclusive user's counter on every request
  (`server/middlewares/auth.js:12-20`).
- It also writes 0 when the stored value is already 0.

## Model

| member | source | states |
|---|---|---|
| `Auth.Normalize` | server/middlewares/auth.js:12-20 | The stored counter is kept only for a free user whose stored value is present and non-zero. Exclusive users, missing counters and 0 are reset to 0. |
| `Auth.PlanOf` | server/middlewares/auth.js:23 | `req.plan` is `Exclusive` exactly when the plan check `has({plan: 'exclusive'})` holds, and `Free` otherwise. |
| `Auth.AuthStep` | server/middlewares/auth.js:5-27 | `req.plan` is `Exclusive` exactly when the plan check holds. After `next()`, `req.free_usage` equals the stored counter. A free user with a truthy counter is passed on with it and no write. Everyone else passing is written 0 and gets 0. A failed lookup or reset answers `{success:false, message}`, does not call `next()` and changes nothing. The log is never touched. |
| `Auth.Authenticate` | server/middlewares/auth.js:5-27 | The middleware on the live store ends in exactly the state and outcome of `AuthStep`. |
| `Auth.AuthIdempotent` | server/middlewares/auth.js:12-20 | A second run with the same plan leaves the store as the first run left it. When its calls return, it yields the same request. |
| `Backend.Store.UpdateUserMetadata` | server/controllers/aiController.js:44-48 | The metadata update writes the user's counter only when the service returns, and leaves the log alone. |
| `Backend.Store.InsertCreation` | server/controllers/aiController.js:41 | The insert appends exactly the row, only when the database returns, and leaves the counters alone. |
| `AiController.OverFreeLimit` | server/controllers/aiController.js:23 | The admission test of the article and blog-title handlers (lines 23 and 69). An exclusive request is never over the limit. A free request is over it exactly when its counter is 10 or more. |
| `AiController.QuotaGatedStep` | server/controllers/aiController.js:16-58 | A free user at 10 or more is rejected before any call: `{<key>: false, 'Limit reached...'}` and nothing changes. An exclusive user is never limited and never has the counter written. Success holds exactly when the limit passes and every call made returns. The counter is written only after generation and insert returned, and then to exactly `free_usage + 1` ≤ 10. The row is logged exactly when generation and insert returned. Each thrown error is answered with its message. A failed generation or insert changes nothing. |
| `AiController.RunQuotaGated` | server/controllers/aiController.js:23-51 | The shared handler body on the live stores ends in exactly the state and response of `QuotaGatedStep`. |
| `AiController.GenerateArticle` | server/controllers/aiController.js:16-58 | `generateArticle` behaves as `QuotaGatedStep` with kind Article and rejection key `sucess`. |
| `AiController.GenerateBlogTitle` | server/controllers/aiController.js:62-98 | `generateBlogTitle` behaves as `QuotaGatedStep` with kind BlogTitle and rejection key `success`. |
| `AiController.GenerateImageStep` | server/controllers/aiController.js:102-149 | Every non-exclusive request is rejected with the exclusive-only message and no effect, whatever its counter. The counter is never written. Success holds exactly when generation, upload and insert return. The logged row is the uploaded URL, with `publish` false when the request omits it. The first thrown error is the message. |
| `AiController.GenerateImage` | server/controllers/aiController.js:102-149 | The handler on the live stores ends in exactly the state and response of `GenerateImageStep`. |
| `AiController.RemoveBackgroundStep` | server/controllers/aiController.js:152-180 | A non-exclusive request gets `res.join is not a function` with no effect. A missing file is answered with the TypeError on `path`. The counter is never written. Success holds exactly when upload and insert return, and then one background-removal row is logged. |
| `AiController.RemoveImageBackground` | server/controllers/aiController.js:152-180 | The handler on the live stores ends in exactly the state and response of `RemoveBackgroundStep`. |
| `AiController.RemoveObjectStep` | server/controllers/aiController.js:182-209 | A non-exclusive request gets `res.join is not a function` with no effect. A missing object name fails with the TypeError on `trim`, after the upload. The counter is never written. On success the row `Removed <object> from image` is logged with the transformed URL. |
| `AiController.RemoveImageObject` | server/controllers/aiController.js:182-209 | The handler on the live stores ends in exactly the state and response of `RemoveObjectStep`. |
| `AiController.ResumeReviewStep` | server/controllers/aiController.js:212-252 | A non-exclusive request gets `res.join is not a function` with no effect. Once the plan passes, a file over 5242880 bytes is refused before any read or generation. A file of exactly 5242880 bytes can succeed. The counter is never written. Success holds exactly when the size passes and review and insert return, and then one resume-review row is logged. |
| `AiController.ResumeReview` | server/controllers/aiController.js:212-252 | The handler on the live stores ends in exactly the state and response of `ResumeReviewStep`. |
| `Pipeline.Serve` | server/middlewares/auth.js:23-27 | Middleware then handler. The counter map changes in at most the sender's entry, so other users' counters never change. The sender's counter is either unchanged or ends ≤ 10. For a free user it rises by exactly one when a gated request succeeds, and otherwise stays put. An exclusive user's request at most resets it to 0. The log keeps its rows and gains at most one. |
| `Pipeline.RunKeepsCounterWithinLimit` | server/controllers/aiController.js:23-49 | Over any sequence of requests, from any users and plans and whatever the services reply, a counter starting at or below 10 stays at or below 10. |
| `Pipeline.FreeUserCounterCountsSuccesses` | server/controllers/aiController.js:43-49 | For a user on the free plan in all their requests, the final counter is the initial counter plus their number of successful article and blog-title responses. |
| `Pipeline.FreeUserSuccessesBounded` | server/controllers/aiController.js:16-98 | A free user starting at c ≤ 10 gets at most 10 − c successful gated generations in any run. |
| `Pipeline.NinthUseAdmittedTenthRejected` | server/controllers/aiController.js:23-25 | A free user at 9 is admitted and moves to 10. The next article request is rejected with the limit message and changes nothing. |

## Left out

- The language model, the image API `fetch` with its response checks, the media host's upload and URL construction (including the `gen_remove:` effect string), `pdf-parse` and `fs.readFileSync`. Each is a `Call<T>` reply: a returned value or a thrown message.
- `maxTokens = Math.ceil(length * 1.5)`: floating point on an untyped request field, passed only to the language model. For a natural `length` it equals `(3 * length + 1) / 2`.
- The lost-update race between concurrent requests from one user. Requests are served strictly one after another.
- `console.log` / `console.error`, HTTP status codes, and the identity provider's merging of other `privateMetadata` fields.
- JavaScript's dynamic typing. `free_usage` is a natural number: a stored string or other non-numeric value is not modelled. `req.plan` always holds one of the two plans, because the router that mounts `auth` before the AI handlers is not part of this model. The handlers' own `req.auth()` is assumed not to throw after the middleware succeeded.
- AiController.GenerateImageStep: `publish` is an optional boolean. A non-boolean body value, which `publish ?? false` would store unchanged, is not modelled.
- Backend.Store.UpdateUserMetadata: a metadata update that throws is assumed to have written nothing. A write that lands but whose reply is lost is not modelled.
- Backend.Store.InsertCreation: an insert that throws is assumed to have added no row. An insert that lands but whose reply is lost is not modelled.
- Pipeline.FreeUserCounterCountsSuccesses: the exact count rests on the two assumptions above. If a counter write landed but its reply was lost, the counter would rise with no success counted. `Pipeline.RunKeepsCounterWithinLimit` does not depend on them, since such a write is still `free_usage + 1` ≤ 10.
- AiController.QuotaGatedStep, AiController.RemoveBackgroundStep, AiController.RemoveObjectStep, AiController.ResumeReviewStep: these rows are inserted without a `publish` value, so the column takes the table's default. The schema is not part of this model, and the default is assumed to be false.
- AiController.RemoveObjectStep: the upload reply stands for the final transformed URL. The trimming of the object name inside that URL is not modelled.
- The client page `client/src/pages/GenerateImages.jsx` (UI state, the POST and the download) and the user routes in `server/routes/userRoutes.js` are not part of this model.
