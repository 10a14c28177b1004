# Stairwell file-reputation lookup, modelled in Dafny

This project models the lookup core of the Stairwell integration
(`integration.js`). For each file-hash indicator, `doLookup` makes one
authenticated GET to `{url}/api/v3/files/{hash}`. It classifies every reply
as a result or a batch error. If no task fails, it turns each reply body
into a lookup result:

- a *miss* (`data: null`) when the body is `null` or `[]`;
- a *hit* otherwise, with a summary tag (the probability bucket) and a
  details object. The details carry an `isMalicious` flag and rewrite the
  `size`, `creation_date` and `occurrences` attributes for display.

`validateOptions` checks that the API key is a non-empty string.

Modules, leaf first:

- `Wrappers` (wrappers.dfy): `Option` and `Result`.
- `Text` (text.dfy): decimal text of integers with its parser, and substring search.
- `Json` (json.dfy): JSON values and the JavaScript operations used on them.
  These are truthiness, lodash `get`, object spread and template-literal text.
- `Requests` (request.dfy): indicators, options and the request built for one indicator.
- `Responses` (classify.dfy): the request callback, from reply to task result or task error.
- `Normalization` (normalize.dfy): the miss rule, summary tags, malicious flag and attribute rewrite.
- `Lookup` (lookup.dfy): task preparation, the batch, the aggregation and `doLookup` itself.
- `Validation` (validate.dfy): `validateOptions`.
- `Examples` (examples.dfy): the documented behaviours on concrete bodies.

The HTTP client is a parameter `client: Request -> Response`. JavaScript
behaviour the model does not define is a `Runtime` record of functions:
`toFixed(2)` text, `JSON.stringify`, numeric coercion of non-numbers that
convert to a primitive, and lodash `map` over an object.

Behaviour of the code worth knowing:

- A 429 reply is a batch error, not a miss. The callback sets `error` to the
  rate-limit object and passes it to `done`, so the batch callback receives
  it and no result list is produced.
- A `null` body is a miss. The aggregation loop tests `result.body === null`
  before `_isMiss`.
- Results keep task order. `async.parallelLimit` stores each task's result at
  the task's index, and the model's fold does the same.
- A hit whose probability bucket is present but is not a string or an array
  makes `.includes('HIGH')` throw a TypeError. This includes a `null` bucket,
  since lodash `getOr` only replaces `undefined`. The exception escapes the
  batch callback, so the host callback is never called. The model reports
  this as the outcome `Threw`.
- A truthy `size` or `creation_date` that JavaScript cannot convert to a
  primitive makes `rawSize > 1000` or `rawCreationDate * 1000` throw a
  TypeError as well. For parsed JSON this is an object with its own
  "toString" key, or an array holding such an object at any depth, since
  `join` converts each element. It also ends in `Threw`. The verdict is
  computed before the attributes, so a throwing bucket is the error reported
  when both throw.
- lodash `get` and `getOr` first try a dotted path as one literal key of the
  object they are given, and walk it key by key only when no such key
  exists. The summary tag reads the full path from the body; the malicious
  flag reads the short path from the attributes. An attributes key spelled
  "mal_eval_result.probability_bucket" therefore sets `isMalicious` while the
  summary stays empty.

## Model

| member | source | states |
|---|---|---|
| Requests.BuildRequest | integration.js:26-35 | The request is a JSON GET with exactly one header, `X-Apikey`, carrying the API key. Its URI starts with `url + "/api/v3/files/"` and the indicator value reads back out of it. |
| Requests.BuildRequestInjective | integration.js:30 | Indicators with different values are requested at different URIs. |
| Lookup.PrepareTasks | integration.js:26-39 | One task per indicator, in input order, each carrying that indicator and the request built for it. |
| Responses.Classify | integration.js:40-76 | Only status 200 succeeds, yielding `{entity, body}` for the same indicator. A transport failure gives the "Error in Request" error with the cause. 429 is exactly the rate-limit error. Any other status gives an error with status, body and indicator value. Every error except rate-limit names the indicator. |
| Responses.ErrorDetail | integration.js:41-71 | The `detail` of the error a reply produces is "Error in Request" exactly for a transport failure, "Reached API Lookup Limit" exactly for a 429, and "Unexpected Non 200 HTTP Status Code" exactly for any other non-200 status. |
| Lookup.RunTasks | integration.js:80-84 | The batch succeeds exactly when every task succeeds, with one result per task in task order. Otherwise it yields the error of a failing task all of whose predecessors succeeded, and no results. |
| Lookup.BatchErrorDetail | integration.js:80-84 | The `detail` of a batch error describes the reply of the first failing task: no reply, a 429, or another non-200 status. |
| Lookup.Aggregate | integration.js:86-134 | One lookup result per task result, in order, each the normalised form of that result. It fails exactly when some result throws, with the TypeError of the first such result; every earlier result normalises. |
| Lookup.DoLookup | integration.js:20-140 | A result list has one entry per indicator, in input order, with the same indicator. Each entry is the normalised 200 reply body for that indicator: a miss exactly when the body is `null` or `[]`, otherwise its summary tags and details. The call fails exactly when some reply is not a 200, and then with that reply's error. Any transport failure or 429 fails the batch. When every reply is a 200 and some hit throws, the outcome is `Threw`. A `Threw` outcome always comes from such a hit: its bucket has no `includes`, or a truthy `size` or `creation_date` has no primitive value. |
| Normalization.IsMiss | integration.js:87 | The aggregation's miss test (`null` or `_isMiss`, which is `Normalization.IsEmptyArray`, integration.js:154-159: a truthy array of length 0) holds exactly for the bodies `null` and `[]`. Non-empty arrays, objects and every other value are hits. |
| Normalization.SummaryTags | integration.js:142-152 | At most one tag, and it is truthy. If the body has a key spelling the whole path, the tag is that key's value when truthy. Otherwise there is a tag exactly when the bucket walked under `data.attributes` is present and truthy, and then the tag is that bucket. |
| Normalization.IsMalicious | integration.js:106-110 | The bucket is read with lodash `getOr`: a literal "mal_eval_result.probability_bucket" key first, then the walked path. An absent bucket gives false. A string bucket gives true exactly when "HIGH" occurs in it. An array bucket gives true exactly when it has the element "HIGH". Any other bucket, `null` included, throws. |
| Normalization.MaliciousHasSummaryTag | integration.js:101-110 | When neither the body nor the attributes has a key spelling a whole bucket path, a body judged malicious has its bucket as its single summary tag. |
| Normalization.LiteralBucketKeyDivergence | integration.js:106-110 | With an attributes key spelled "mal_eval_result.probability_bucket" holding "HIGH", the file is malicious and the summary is empty. |
| Normalization.SizeText | integration.js:113-118 | The size text throws exactly when the size has no primitive value. A numeric size above 1000 takes the kilobyte text. Otherwise the text is the size's decimal text followed by " bytes", and that leading part reads back as the size. |
| Normalization.BytesTextReadsBack | integration.js:117 | The text `"{n} bytes"` ends in " bytes" after the decimal text of `n`, which parses back to `n`. |
| Normalization.Times1000 | integration.js:119-121 | The product throws exactly when the creation date has no primitive value. A numeric creation date becomes a multiple of 1000 that divides back to the original seconds. |
| Normalization.StringifyEach | integration.js:122-127 | An occurrences array maps to an array of the same length whose elements are the serialised original elements. A string maps to one serialised one-character string per character. A number or boolean maps to `[]`. |
| Normalization.RewriteAttributes | integration.js:111-128 | The rewrite throws exactly when a truthy `size` or `creation_date` has no primitive value, reporting `size` first. Otherwise it never adds or removes an attribute. A truthy `size`, `creation_date` or `occurrences` is replaced by its display form. Every other attribute, and a falsy one of those three, keeps its value. |
| Normalization.DetailsData | integration.js:104-129 | The details' data object has the original data's keys plus `isMalicious` and `attributes`. `isMalicious` is the malicious verdict and `attributes` is the rewritten attributes. Every other data key is unchanged. It fails exactly when the verdict or the attribute rewrite throws, and with the verdict's error when the verdict throws. |
| Normalization.Details | integration.js:102-130 | The details object has the body's own keys plus `data`. Every other top-level key is unchanged. It fails exactly when the bucket has no `includes` or a truthy `size` or `creation_date` has no primitive value, and with the verdict's error when the verdict throws. |
| Normalization.Normalize | integration.js:86-133 | A lookup result keeps the indicator. Its data is absent exactly when the body is `null` or `[]`. A hit carries the summary tags and the details. It throws exactly for a hit whose bucket has no `includes` or whose truthy `size` or `creation_date` has no primitive value, with the verdict's error first. A miss never throws. |
| Validation.ValidateOptions | integration.js:192-205 | No error exactly when the API key value is a non-empty string. Otherwise exactly one error, with key "apiKey" and the fixed message. |
| Text.Includes | integration.js:110 | The left-to-right search answers true exactly when the pattern occurs at some index of the text. |
| Text.ParseIntToText | integration.js:117 | The decimal text of any integer, as printed in the bytes text, parses back to that integer. |
| Json.GetPathAppend | integration.js:145-148 | Walking a path key by key in two legs agrees with walking it at once. This ties the walked bucket read from the body to the one walked from the attributes. |
| Json.IndexKeys | integration.js:103 | Spreading an array gives keys "0", "1", ... each bound to the element at that index, and no other keys. |
| Normalization.BucketPathSplitsText | integration.js:108 | The keys the short bucket path is walked by contain no dot and, joined with dots, give its text: the text split at the dot, as lodash splits a string path. |
| Normalization.FullBucketPathSplitsText | integration.js:146 | The keys the full bucket path is walked by contain no dot and, joined with dots, give its text: the text split at the dots. |
| Examples.HighConfidenceBucket | integration.js:101-110 | A "HIGH_CONFIDENCE" bucket becomes the summary tag and sets `isMalicious`. |
| Examples.EmptyArrayIsMiss | integration.js:87-91 | The body `[]` yields `data: null`. |
| Examples.SizeExamples | integration.js:113-118 | Size 500 is shown as "500 bytes". Size 1500 takes the kilobyte text. |
| Examples.CreationDateExample | integration.js:119-121 | Creation date 1000 becomes 1000000. |
| Examples.ToStringKeySizeThrows | integration.js:113-116 | A size object with its own "toString" key makes normalising the hit throw. |
| Examples.NestedToStringKeyThrows | integration.js:119-121 | A creation-date array holding an object with its own "toString" key makes normalising the hit throw. |

## Left out

- The HTTP call (`postman-request` and `requestDefault`) is the parameter `client`. A client function gives the same reply to the same request, so two lookups of one indicator in a batch cannot get different replies.
- The concurrency of `async.parallelLimit` and its limit of 10 are not modelled; the batch is a sequential fold. When several tasks fail, the library reports whichever fails first in time. The model reports the first in task order.
- `startup` is not modelled. It reads TLS material from files and configures the client defaults, which is I/O.
- Logger calls are not modelled; they only log.
- config/config.js is static configuration and is not part of this model.
- Normalization.SizeText: the kilobyte text `(size / 1000).toFixed(2) + " KB"` depends on floating-point rounding, so it is `Runtime.kilobytes`. Only the branch choice is proved.
- Normalization.StringifyEach: `JSON.stringify` is `Runtime.stringify`, and lodash `map` over an object is `Runtime.mapObject`. Objects in the model have no key order.
- Normalization.Above1000: `>` and `*` on a string, array or object size or creation date that converts to a primitive use JavaScript's numeric coercion, which is `Runtime.looseAbove1000` and `Runtime.looseTimes1000`. The model's JSON has no `NaN`. When the conversion throws is modelled, by `Normalization.ToPrimitiveThrows`.
- Non-integer JSON numbers are not modelled; numbers are integers.
- Normalization.Times1000: JavaScript numbers are IEEE doubles, so in the source `n * 1000` is inexact once the product passes 2^53. The model multiplies exact integers, and its "divides back" promise holds only there.
- Normalization.SizeText: `${n}` prints exponent notation such as `1e+21` for magnitudes of 10^21 and above, and integers past 2^53 are already rounded. The model's decimal text `Text.IntToText` is exact for every integer.
- Normalization.MaliciousHasSummaryTag: it is promised only when neither the body nor the attributes holds a key spelling a whole bucket path. Otherwise the two reads can disagree, as `Normalization.LiteralBucketKeyDivergence` shows.
- A 200 reply with no body (`undefined`) is not modelled; every reply carries a JSON value.
- Strings are sequences of characters, not UTF-16 code units, so character-wise spread and mapping of strings with astral characters differ.
- The transport error object is a string cause, and the `error: null` field of the non-200 error object is omitted.
- `validateOptions` throws in the source when `apiKey` is missing from the options. The model's options always hold it.
