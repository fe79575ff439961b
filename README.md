# stock-explore: error envelope and client list logic, in Dafny

This project models the two self-contained pieces of logic in stock-explore. The
rest of the repository is a market-data backend and a mobile client, and is glue.

1. **The backend's error envelope** (`backend/src/utils/globalErrorHandler.ts`),
   in module `ErrorHandler`:
   - the `BaseError` class hierarchy (`ForbiddenError`, `NotFoundError`,
     `InternalServerError`) is a datatype tagged with the class that built it;
   - `toJSON` is `ToJson`, and `ErrorFactory` is three functions;
   - `handleError` and `globalErrorHandler` are functions that return the
     `Response(status, body)` the handler writes with `res.status(...).json(...)`;
   - `process.env.NODE_ENV` is a parameter of type `Option<string>`;
   - a thrown value is a `JsValue`. It records what `typeof` reports, whether
     the value is a `BaseError` instance, and for an `Error` its `message` and
     `stack`, which `globalErrorHandler` also reads;
   - a JSON body is a sequence of key/value members in insertion order, read
     through `Lookup` and `HasKey`.
2. **The client's list logic** (`frontend/app/index.tsx`), without the rendering:
   - `TimeAgo`: the `formatTimeAgo` label of a news article, computed from the
     millisecond difference `now - date`. Dafny's `/` on `int` with a positive
     divisor is a floor division. It agrees with `Math.floor` applied to the
     floating-point quotient whenever the difference is below 2^53 ms in
     magnitude, which covers every real article date. `Decimal` prints the
     count the way a template literal does, in shortest form.
   - `Paging`: the "View More" window that both lists use. It covers
     `slice(0, visible)`, the rendered rows, the button and its "remaining"
     count, and the `isLast` flags. It also has a model of `visible` as a
     function of the presses so far.
   - `StockListsComponent.StockLists`: a class for the `StockLists` component's
     state. It has the selected tab, `visible`, and per-tab data, loading flags
     and errors. React's setters are field updates. An asynchronous fetch is
     split at its `await`: `LoadEffect` and `Retry` start it, and
     `CompleteFetch` finishes it. The fetch's outcome is a parameter.
   - `NewsSectionComponent.NewsSection`: the same for the `NewsSection` component.

### Notes on the handlers

- The generic 500 body of `globalErrorHandler` is not the `{status, code,
  message, details?}` envelope. It has a `statusCode` member, and in
  development mode a `stack` member instead of `details`
  (`GenericBodyIsNotErrorEnvelope`).
- The stack is attached only when `NODE_ENV` is exactly `"development"`. The real
  message is shown whenever `NODE_ENV` is not exactly `"production"`. So with
  `NODE_ENV` unset, the message is shown but no stack
  (`UnsetModeShowsMessageWithoutStack`).
- `handleError` answers the same non-`BaseError` with the fixed message in every
  mode. So the two handlers disagree outside production
  (`HandlersDifferOutsideProduction`).

## Model

| member | source | states |
|---|---|---|
| ErrorHandler.ToJson | backend/src/utils/globalErrorHandler.ts:19-28 | the body is an error envelope with `status: "error"` and the error's own code and message; it has a `details` member exactly when the details are a non-null object, and then it holds those details |
| ErrorHandler.IsBaseError | backend/src/utils/globalErrorHandler.ts:54-56 | holds exactly of `BaseError` instances, which are always non-null objects |
| ErrorHandler.NewBaseError | backend/src/utils/globalErrorHandler.ts:3-17 | the error stores the given status code and details; its JSON has the given code and message, and a `details` member exactly when the details are a non-null object |
| ErrorHandler.NewForbiddenError | backend/src/utils/globalErrorHandler.ts:31-35 | status 403, code `FORBIDDEN`, the given message or else "Only consultants can perform this action", and no `details` in its JSON |
| ErrorHandler.NewNotFoundError | backend/src/utils/globalErrorHandler.ts:37-41 | status 404, code `NOT_FOUND`, the JSON message is the resource text, and there is no `details` |
| ErrorHandler.NewInternalServerError | backend/src/utils/globalErrorHandler.ts:43-52 | status 500, code `INTERNAL_SERVER_ERROR`, the fixed message; outside development mode its JSON has no `details`; in development mode it has the wrapped value as `details` exactly when that value is a non-null object |
| ErrorHandler.FactoryForbidden | backend/src/utils/globalErrorHandler.ts:67 | `ErrorFactory.forbidden()` with no argument gets the default message; with one it keeps that message; status 403 and code `FORBIDDEN` |
| ErrorHandler.FactoryNotFound | backend/src/utils/globalErrorHandler.ts:68 | `ErrorFactory.notFound(r)` is a 404 `NOT_FOUND` error whose message is `r` |
| ErrorHandler.FactoryInternal | backend/src/utils/globalErrorHandler.ts:69 | `ErrorFactory.internal(error?)` is a 500 `INTERNAL_SERVER_ERROR` with the fixed message; its JSON has no `details` without an argument or outside development mode; in development mode it has the argument as `details` exactly when the argument is a non-null object |
| ErrorHandler.HandleError | backend/src/utils/globalErrorHandler.ts:54-64 | a `BaseError` is answered with exactly its status code and `toJSON()`; any other value is answered 500 with the JSON of an `InternalServerError` wrapping it: code `INTERNAL_SERVER_ERROR`, the fixed message, and the thrown value itself as `details` exactly in development mode when it is a non-null object; the body is always an error envelope |
| ErrorHandler.GlobalErrorHandler | backend/src/utils/globalErrorHandler.ts:72-105 | a `BaseError` is answered with exactly its status code and `toJSON()`; any other error is answered 500 with `statusCode: 500`, code `INTERNAL_SERVER_ERROR`, the fixed message if and only if in production mode (or the error's own message is that phrase) and otherwise its own message, a `stack` member holding the stack if and only if in development mode, and no other members: the body's keys are exactly `status`, `statusCode`, `code`, `message`, and `stack` in development mode |
| ErrorHandler.HandlersAgreeOnBaseErrors | backend/src/utils/globalErrorHandler.ts:58-91 | both handlers answer any `BaseError` identically, with its own status code |
| ErrorHandler.HandlersDifferOutsideProduction | backend/src/utils/globalErrorHandler.ts:58-104 | outside production, an ordinary `Error` gets status 500 from both handlers but different messages, unless its own message is the fixed phrase |
| ErrorHandler.GenericBodyIsNotErrorEnvelope | backend/src/utils/globalErrorHandler.ts:93-102 | the generic 500 body of `globalErrorHandler` is never the `toJSON` envelope shape, whatever the mode |
| ErrorHandler.UnsetModeShowsMessageWithoutStack | backend/src/utils/globalErrorHandler.ts:97-101 | with `NODE_ENV` unset, the generic body shows the error's own message and has no `stack` |
| TimeAgo.DaysFromHours | frontend/app/index.tsx:747-748 | flooring to hours and then to days is the same as flooring to days: ⌊⌊d/3600000⌋/24⌋ = ⌊d/86400000⌋ |
| TimeAgo.Bucket | frontend/app/index.tsx:746-757 | days if and only if d ≥ 86400000, and then the count is ⌊d/86400000⌋ ≥ 1; hours if and only if 3600000 ≤ d < 86400000, and then the count is ⌊d/3600000⌋, between 1 and 23; minutes otherwise, and then the count is ⌊d/60000⌋ ≤ 59, negative exactly for a future date |
| TimeAgo.FormatTimeAgo | frontend/app/index.tsx:743-757 | the label printed for a difference reads back as the bucket and count that `Bucket` gives for it, and its count is in shortest form (no leading zero, no "-0") |
| TimeAgo.FormatTimeAgoIsExact | frontend/app/index.tsx:750-757 | that contract fixes the text: any label with a shortest-form count that reads back as the difference's bucket is exactly the printed one |
| TimeAgo.LabelRoundTrip | frontend/app/index.tsx:750-757 | every "<n>d ago", "<n>h ago" or "<n>m ago" label reads back as the unit and count it was printed from |
| TimeAgo.FormatTimeAgoDecodes | frontend/app/index.tsx:743-757 | two differences print the same label if and only if they fall in the same unit with the same count |
| TimeAgo.BucketMonotoneWithinUnit | frontend/app/index.tsx:746-757 | within one unit, a larger difference never shows a smaller count |
| Decimal.IntToString | frontend/app/index.tsx:751-756 | the decimal text a template literal prints for an integer below 10^21 in magnitude is in shortest form, starts with `-` exactly for a negative integer, and reads back as that integer |
| Decimal.CanonicalIntText | frontend/app/index.tsx:751-756 | the only shortest-form text that reads back as an integer is the one printed for it |
| Decimal.NatToStringOfDigits | frontend/app/index.tsx:751-756 | a digit string without leading zeros is the text printed for its value |
| Decimal.IntToStringInjective | frontend/app/index.tsx:751-756 | different integers print as different text |
| Paging.SliceTo | frontend/app/index.tsx:407 | `slice(0, end)` is a prefix of the list, of length min(end, n) for a non-negative end, and counted back from n for a negative one |
| Paging.Window | frontend/app/index.tsx:550-561 | nothing is rendered while blocked; otherwise exactly the first min(visible, n) items, in order |
| Paging.Remaining | frontend/app/index.tsx:564-570 | when "View More" is shown, its remaining count is strictly positive and adds up with `visible` to the list length |
| Paging.LastFlags | frontend/app/index.tsx:552-560 | at most one rendered row is flagged `isLast`; none is flagged while more items remain; the final row is flagged once all are shown |
| Paging.ViewMoreExtendsWindow | frontend/app/index.tsx:564-572 | one "View More" press keeps the rows already shown, in order, and reveals min(5, the hidden count) more |
| Paging.PressesToShowAll | frontend/app/index.tsx:564-566 | the least number of presses p with 5·(p + 1) ≥ n |
| Paging.PressesToShowAllIsExact | frontend/app/index.tsx:564-566 | after that many "View More" presses from the initial window the button is hidden, and after any fewer presses it is still shown |
| Paging.VisibleIsWholePages | frontend/app/index.tsx:418-421 | after any sequence of "View More" and tab presses, `visible` is 5 times (1 + the presses since the last tab press), so it is always a positive multiple of 5 |
| StockListsComponent.TabLabel | frontend/app/index.tsx:409-416 | a tab's label is its key with the first letter capitalised |
| StockListsComponent.FailureMessage | frontend/app/index.tsx:375 | the message a failed load of a tab leaves is never empty, so the error state is truthy |
| StockListsComponent.FailureMessagesDistinct | frontend/app/index.tsx:375 | different tabs leave different failure messages, so the message identifies its tab |
| StockListsComponent.PerTab.Set | frontend/app/index.tsx:339-352 | setting one tab's state variable leaves the other two tabs' values unchanged |
| StockListsComponent.StockLists.constructor | frontend/app/index.tsx:335-352 | the initial state is the gainers tab, a window of 5, and no data, loading flags or errors |
| StockListsComponent.StockLists.GetData | frontend/app/index.tsx:391-404 | the rows are the selected tab's list, in order, each projected to symbol, exchange, price and change |
| StockListsComponent.StockLists.CurrentStates | frontend/app/index.tsx:460-480 | the selected tab's loading flag and error; `hasError` holds if and only if that tab has an error and is not loading |
| StockListsComponent.StockLists.VisibleItems | frontend/app/index.tsx:406-407 | the visible items are exactly the first min(visible, n) rows of the selected tab, in order |
| StockListsComponent.StockLists.RenderedRows | frontend/app/index.tsx:550-561 | no rows while loading or errored; otherwise exactly the visible items |
| StockListsComponent.StockLists.ShowViewMore | frontend/app/index.tsx:564 | "View More" is shown if and only if the tab is neither loading nor errored and `visible` < n |
| StockListsComponent.StockLists.RemainingCount | frontend/app/index.tsx:564-570 | the count on the button is strictly positive and equals the number of hidden rows |
| StockListsComponent.StockLists.RowLastFlags | frontend/app/index.tsx:559 | at most one row is flagged `isLast`; none while more remain; the final row once all are shown |
| StockListsComponent.StockLists.SelectTab | frontend/app/index.tsx:418-421 | selects the tab and resets `visible` to 5; data, loading flags and errors do not change |
| StockListsComponent.StockLists.ViewMore | frontend/app/index.tsx:564-566 | adds 5 to `visible`, keeps it a multiple of 5, and keeps the rows already visible as a prefix of the new visible rows |
| StockListsComponent.StockLists.LoadEffect | frontend/app/index.tsx:355-388 | starts a fetch if and only if the selected tab's list is empty, and only for that tab; that tab alone gets loading set and its error cleared; otherwise only that tab's loading flag is cleared |
| StockListsComponent.StockLists.Retry | frontend/app/index.tsx:423-443 | only callable while the error view is shown; sets the selected tab's loading flag, clears its error, and changes no other tab |
| StockListsComponent.StockLists.CompleteFetch | frontend/app/index.tsx:357-384 | a success stores that tab's list; a failure sets only that tab's error to its failure message; either way only that tab's loading flag is cleared |
| StockListsComponent.FailedFirstLoad | frontend/app/index.tsx:520-573 | after a failed first load, the gainers tab shows "Failed to load gainers stocks" with `hasError` set, and shows no rows and no "View More" |
| NewsSectionComponent.NewsSection.constructor | frontend/app/index.tsx:717-721 | the initial state is a window of 5, no articles, loading, and no error |
| NewsSectionComponent.NewsSection.ErrorShown | frontend/app/index.tsx:799 | the error view is shown if and only if there is an error and it is not loading |
| NewsSectionComponent.NewsSection.Blocked | frontend/app/index.tsx:812-813 | articles are hidden if and only if it is loading or there is an error |
| NewsSectionComponent.NewsSection.VisibleNews | frontend/app/index.tsx:741 | the visible articles are exactly the first min(visible, n), in order |
| NewsSectionComponent.NewsSection.RenderedNews | frontend/app/index.tsx:811-855 | no articles while blocked; otherwise exactly the visible ones |
| NewsSectionComponent.NewsSection.ShowViewMore | frontend/app/index.tsx:858 | "View More" is shown if and only if it is not loading, there is no error, and `visible` < n |
| NewsSectionComponent.NewsSection.RemainingCount | frontend/app/index.tsx:858-864 | the count on the button is strictly positive and equals the number of hidden articles |
| NewsSectionComponent.NewsSection.ArticleLastFlags | frontend/app/index.tsx:815-816 | at most one article is flagged `isLast`; none while more remain; the final one once all are shown |
| NewsSectionComponent.NewsSection.LoadEffect | frontend/app/index.tsx:723-739 | the mount effect sets loading and clears the error before its fetch |
| NewsSectionComponent.NewsSection.Retry | frontend/app/index.tsx:773-784 | only callable while the error view is shown; sets loading and clears the error before its fetch |
| NewsSectionComponent.NewsSection.CompleteLoad | frontend/app/index.tsx:727-735 | a success stores the articles; a failure sets "Failed to load news"; either way loading is cleared |
| NewsSectionComponent.NewsSection.ViewMore | frontend/app/index.tsx:860 | adds 5 to `visible`, keeps it a multiple of 5, and keeps the articles already visible as a prefix |
| NewsSectionComponent.PageThroughTwelve | frontend/app/index.tsx:741-867 | with twelve articles loaded, the button first shows 7 remaining; after two presses all twelve are shown, only the last is flagged, and the button is gone |

## Left out

- `backend/src/services/stockService.ts` is not part of this model. Every operation in it is a call into `yahoo-finance2` or `axios`, and its one computation formats a floating-point volume.
- `backend/src/controller/stockController.ts`, `backend/src/index.ts` and `backend/src/router/stockRouter.ts` are not part of this model. They are Express wiring. This includes the catch-all 404 handler.
- `frontend/app/_layout.tsx`, `frontend/app/test.tsx` and all JSX, styling, `Linking` and `toFixed`/`toLocaleString` display formatting are not part of this model. They are presentation or floating point.
- The `MarketSnapshot` and `StockSpotlight` components of `frontend/app/index.tsx` are not part of this model.
- The axios `fetch*` functions are not modelled. The outcome of a fetch is a parameter of `CompleteFetch` and `CompleteLoad`: a list, or `None` for a thrown error.
- The order in which React re-renders and runs effects is not modelled, and neither are races between overlapping fetches. The caller decides when `LoadEffect` runs and passes the tab that the fetch captured.
- The date string parsing and the clock in `formatTimeAgo` are not modelled. The input is the integer difference of the two `getTime()` values, so an invalid date (`NaN`) is not modelled either.
- `console.error` logging, `Error.captureStackTrace`, `Object.setPrototypeOf` and the error's `name` are not modelled. They affect only the log.
- The stack trace is an opaque string. A stack of `undefined`, which JSON serialisation would drop, is not modelled.
- `details` is written as the JavaScript value itself. How `JSON.stringify` serialises an object (for example, an `Error` becomes `{}`) is not modelled.
- ErrorHandler.GlobalErrorHandler: requires the caught value to be an `Error` instance, which axios and yahoo-finance2 rejections are; the controllers pass whatever they caught, cast to `BaseError`. Other thrown values are not modelled. A thrown `null` or `undefined` makes the handler's own `error.name` read (backend/src/utils/globalErrorHandler.ts:78) throw a `TypeError` before any response is written, so that request is never answered. A non-`Error` object gets whatever `message` and `stack` properties it has written into the body, and a missing one is dropped from the JSON.
- Decimal.IntToString: models `${n}` only for integers below 10^21 in magnitude; from 10^21 up JavaScript prints exponent form ("1e+21"), which no realistic time difference in minutes, hours or days reaches.
- ErrorHandler.HandleError and ErrorHandler.GlobalErrorHandler: a `BaseError` whose `statusCode` lies outside 100–999 makes the `res.status(...).json(...)` write throw `ERR_HTTP_INVALID_STATUS_CODE` in Node, so no response is written. This is not modelled: the model answers with that code. The repository only builds errors with 403, 404 and 500.
- TimeAgo.Bucket: computes on integers. The source divides in floating point before `Math.floor`, which agrees with the integer floor only for differences below 2^53 ms in magnitude.
