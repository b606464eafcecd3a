# QuickAI AI controller: entitlement gate and request pipeline

This project models the six request handlers of QuickAI's AI controller
(`server/controllers/aiController.js`): article generation, blog-title
generation, image generation, background removal, object removal and resume
review. Every handler runs the same fixed sequence. The entitlement gate
comes first. Then come the external calls, the insert into the `creations`
table and, for the two metered handlers with a non-premium caller only, the
write of the user's `free_usage`. Last comes the JSON response. Any thrown
error becomes `{success: false, message}`.

The model works on an abstract world (`Pipeline.World`) with three parts:

- `ledger`: the rows of the `creations` table (`Creations.Creation`);
- `freeUsage`: the `free_usage` held in each user's private metadata by the identity service;
- `calls`: every external call the controller has issued, in order, with its arguments (`Providers.Call`).

The trace is what lets the contracts say "no provider call was made", "the
insert runs only after the provider succeeds" and "nothing runs after an
error". How each service answers during a request is an input, `Providers.Env`:
a value or an error message for each service, including the insert and the
metadata update.

Layout:

- `results.dfy`: optional request fields and call outcomes.
- `entitlement.dfy`: the plan name, the free limit (10), the three rejection messages, and the two gate predicates (metered, premium-only).
- `creations.dfy`: ledger rows and the `type` column.
- `providers.dfy`: the external calls, covering the Groq completion (model `llama-3.3-70b-versatile`, temperature 0.7, default `max_tokens` 400), ClipDrop text-to-image, Cloudinary upload and URL construction, the file read, pdf-parse, the SQL insert and the metadata update. It also holds the strings the handlers build.
- `pipeline.dfy`: for each handler, its plan (the calls it makes when each one succeeds) and a function giving the world after the request and the response. `FollowsPlan` states the shared envelope. The request makes a prefix of its plan in order, and each call but the last succeeded. It answers success only after the whole plan, and failure only with the message of the call it stopped at.
- `controller.dfy`: the class `AiController` holding the ledger, the counters and the trace. Its handlers are written step by step with early returns, as in the source, and each is proved equal to its function in `Pipeline`.
- `sessions.dfy`: runs of metered requests from one user, each request carrying the counter the identity service holds when it arrives. The lemmas by induction cover the free allowance and premium users.
- `scenarios.dfy`: single requests worked through to their end state.

Behaviour taken from the code:

- `free_usage` is overwritten with the value the request carried plus one, not with a value read back from the store (lines 57 and 96). `Scenarios.StaleCounterAdmitsAnExtraRequest` shows what that allows when two requests carry the same value.
- The image handler refuses with "This feature is only available for premium subscriptions". The other three premium-only handlers refuse with "Premium feature only".
- Background and object removal do not check for a file. With no file, `image.path` throws, and the caller gets JavaScript's TypeError message (`Providers.UndefinedPathMessage`). Only resume review answers "No file uploaded", and only after the plan check.
- If the metadata update fails after the insert succeeded, the row stays in the ledger, the counter is unchanged and the caller gets the update's error.
- An absent `length` takes `chat`'s default of 400 tokens. An absent `publish` is stored as false. An absent `object` is interpolated as "undefined".

## Model

| member | source | states |
|---|---|---|
| `Entitlement.MeteredRejects` | server/controllers/aiController.js:40 | Defines the metered gate: refuse when the plan is not the string "premium" and `free_usage >= 10`. The same condition stands at line 79. |
| `Entitlement.PremiumOnlyRejects` | server/controllers/aiController.js:117 | Defines the premium-only gate: refuse every plan other than "premium", whatever the counter. The same condition stands at lines 166, 204 and 239. |
| `Providers.ChatRequest` | server/controllers/aiController.js:19-25 | Defines the completion request `chat` sends: model `llama-3.3-70b-versatile`, the user prompt, temperature 0.7, and `max_tokens` defaulting to 400 when the argument is absent. |
| `Providers.ResumePrompt` | server/controllers/aiController.js:252-255 | Defines the review prompt: the template literal with its line breaks and indentation around the extracted PDF text. |
| `Providers.RemovalEffect` | server/controllers/aiController.js:214 | Defines the transformation effect `gen_remove:<object>`. |
| `Providers.RemovalPrompt` | server/controllers/aiController.js:220 | Defines the ledger prompt `Removed <object>`. |
| `Creations.CreationType.Column` | server/controllers/aiController.js:51 | Defines the `type` literal stored for each kind: `'article'` (line 51), `'blog-title'` (90), `'image'` (147, 184, 220) and `'resume-review'` (261). |
| `Creations.ColumnIdentifiesType` | server/controllers/aiController.js:88-91 | Two kinds of creation store the same `type` literal exactly when they are the same kind. |
| `Pipeline.Store` | server/controllers/aiController.js:49-62 | The insert is the one call made. The response is a success exactly when the insert succeeds, and a success carries the row's content. The ledger gains the row exactly on success, and the counter is untouched. |
| `Pipeline.MeteredOutcome` | server/controllers/aiController.js:40-62 | The request is refused with "Limit reached. Upgrade to continue." and the world unchanged exactly when the plan is not "premium" and `free_usage >= 10`. Otherwise it makes the completion call, then the insert, then (non-premium only) the counter write, stopping at the first error and reporting that error's message. On success, the ledger gains exactly one row of the given type whose content is the content returned. `free_usage[user]` becomes the request's value plus one exactly when the response is a success and the caller is not premium, and is untouched otherwise. A failure leaves the ledger unchanged except when only the counter write failed. |
| `Pipeline.ArticleOutcome` | server/controllers/aiController.js:33-67 | The completion call uses the caller's `length` as `max_tokens`, or 400 when it is absent, with model `llama-3.3-70b-versatile` and temperature 0.7. The ledger grows by at most one row, whose `type` column is `'article'`. |
| `Pipeline.BlogTitleOutcome` | server/controllers/aiController.js:72-106 | The completion call uses 100 tokens. The ledger grows by at most one row, whose `type` column is `'blog-title'`. |
| `Pipeline.ImageOutcome` | server/controllers/aiController.js:111-155 | A non-premium caller is refused with the image premium message, with nothing called, stored or counted, and only such a caller is. A premium caller goes through text-to-image, the upload of the returned PNG, then the insert, stopping at the first error. On success, the content is the upload's `secure_url` and the ledger gains exactly the row `(user, prompt, url, image, publish ?? false)`. On failure the ledger is unchanged. `free_usage` is never written. |
| `Pipeline.BackgroundRemovalOutcome` | server/controllers/aiController.js:160-192 | A non-premium caller is refused with "Premium feature only" whatever its counter or file, with the world unchanged, and only such a caller is. A premium caller without a file gets the TypeError message with nothing called. Otherwise the upload carries the background-removal transformation and is followed by the insert. On success, the ledger gains exactly the row with prompt "Remove background", type image and content equal to the returned `secure_url`. On failure nothing is stored. `free_usage` is never written. |
| `Pipeline.ObjectRemovalOutcome` | server/controllers/aiController.js:197-228 | The gate and missing file behave as for background removal. A premium caller with a file gets a plain upload, then the URL built from the upload's `public_id` with effect `gen_remove:<object>`, then the insert. On success, the content is that URL and the ledger gains exactly the row with prompt `Removed <object>` and type image. On failure nothing is stored. `free_usage` is never written. |
| `Pipeline.ReviewOutcome` | server/controllers/aiController.js:250-264 | After the file is read, the steps are the PDF parse, then a 1000-token completion of the review prompt around the extracted text, then the insert, stopping at the first error. On success, the content is the completion's text and the ledger gains exactly the row `(user, 'Resume review', text, resume-review)`. On failure nothing is stored. |
| `Pipeline.ResumeReviewOutcome` | server/controllers/aiController.js:233-269 | A non-premium caller is refused with "Premium feature only" before any file check, and only such a caller is. A premium caller without a file gets "No file uploaded" with the world unchanged. Otherwise the steps are the file read, parse, completion and insert, in order, stopping at the first error. The ledger gains the review row exactly on success. `free_usage` is never written. |
| `Controller.AiController.Insert` | server/controllers/aiController.js:49-52 | The insert is recorded in the trace. The row is appended to the ledger exactly when the insert succeeds, and the insert's outcome is returned. |
| `Controller.AiController.SetFreeUsage` | server/controllers/aiController.js:55-59 | The metadata update is recorded in the trace. The user's counter is overwritten with the given value exactly when the update succeeds. |
| `Controller.AiController.HandleMetered` | server/controllers/aiController.js:40-62 | The imperative metered body, with its early returns, leaves the world and gives the response that `MeteredOutcome` specifies. |
| `Controller.AiController.GenerateArticle` | server/controllers/aiController.js:33-67 | Leaves the world and gives the response that `ArticleOutcome` specifies. |
| `Controller.AiController.GenerateBlogTitle` | server/controllers/aiController.js:72-106 | Leaves the world and gives the response that `BlogTitleOutcome` specifies. |
| `Controller.AiController.GenerateImage` | server/controllers/aiController.js:111-155 | Leaves the world and gives the response that `ImageOutcome` specifies. |
| `Controller.AiController.RemoveImageBackground` | server/controllers/aiController.js:160-192 | Leaves the world and gives the response that `BackgroundRemovalOutcome` specifies. |
| `Controller.AiController.RemoveImageObject` | server/controllers/aiController.js:197-228 | Leaves the world and gives the response that `ObjectRemovalOutcome` specifies. |
| `Controller.AiController.ReviewResume` | server/controllers/aiController.js:233-269 | Leaves the world and gives the response that `ResumeReviewOutcome` specifies. |
| `Sessions.Run` | server/controllers/aiController.js:49-52 | Over any run of metered requests from one user, the ledger only grows, and every row added belongs to that user. |
| `Sessions.FreeSessionCountsSuccesses` | server/controllers/aiController.js:54-60 | For a non-premium user whose requests carry the stored counter, the counter ends at its start value plus the number of successful responses. |
| `Sessions.FreeSessionWithinAllowance` | server/controllers/aiController.js:40-45 | Such a user gets at most `10 - free_usage` successful metered requests, and none once the counter is at 10 or more. |
| `Sessions.PremiumServeOneChat` | server/controllers/aiController.js:40-60 | One metered request from a premium user passes the gate and makes exactly one completion call, and no counter is written. |
| `Sessions.PremiumSessionNeverMetered` | server/controllers/aiController.js:79-99 | Over a premium user's run, no counter is ever written. The new calls hold exactly one completion request per request of the run, so the gate refuses none of them. |
| `Scenarios.NinthFreeArticleIsCounted` | server/controllers/aiController.js:40-62 | A free caller at 9 whose calls all succeed gets its article. The ledger gains one `article` row with that content, and the counter becomes 10. |
| `Scenarios.TenthFreeBlogTitleIsRefused` | server/controllers/aiController.js:79-84 | A free caller at 10 asking for a blog title gets the limit message, and the world is unchanged. |
| `Scenarios.RemovingACar` | server/controllers/aiController.js:211-223 | Removing "car" makes exactly three calls: the upload, the URL with effect `gen_remove:car`, and the insert of the row with prompt "Removed car". The URL is returned and stored. |
| `Scenarios.StaleCounterAdmitsAnExtraRequest` | server/controllers/aiController.js:54-60 | Two requests that both carry the counter 9 both succeed and store two rows, while the counter ends at 10. |

## Left out

- The Groq SDK, the ClipDrop HTTP POST, Cloudinary's upload and URL building, `fs.readFileSync` and pdf-parse are foreign code and network I/O. Each is a recorded call whose answer is an input (`Providers.Env`). The contents of the answers (the generated text, image and URLs) are not modelled.
- The base64 data-URL encoding of the generated PNG is a library conversion. The upload is recorded as taking the bytes themselves.
- The SQL driver, the `created_at` timestamp, `req.auth()`, `res.json` and the HTTP status are reduced to the world's ledger and the `Response` value.
- The middleware that fills `req.plan` and `req.free_usage` is not part of this model. Handlers take the caller's values as given. The lemmas in `Sessions` assume that each request carries the counter the identity service holds when it arrives, with a missing entry read as 0.
- Concurrent requests are out of scope, because each request is one sequential pass. Only the stale-counter scenario shows the effect of two requests carrying the same counter.
- JavaScript values of unexpected types are not modelled. This covers a non-numeric or `null` `length`, a non-boolean `publish`, a non-string `object`, and a missing `free_usage` (whose `+ 1` would be `NaN`).
- The `object` string is interpolated into the transformation unescaped, as in the source. Sanitising it is not part of the code, so it is not part of the model.
- Timeouts and `console.log` error logging are left out.
