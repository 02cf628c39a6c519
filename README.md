# Chat server with an exchange-rate command, modelled in Dafny

The repository is a small websocket chat server. Every message a client sends is
relayed to all connected clients as `"{name}: {message}"`. A message whose
lower-cased text starts with `exchange` also asks for the PrivatBank EUR and USD
exchange rates of the last 1 to 10 days. Those rates come from the
`ExchangeRates` helper, which validates a day count and a currency list, builds
the list of dates ending today, requests each date and filters the provider's
payload.

This project models both parts in five modules:

- `Wrappers`: the `Option` type.
- `Exceptions`: the Python exceptions the code raises or catches, as values.
- `Strings`: the parts of Python's `str` and `int()` the code depends on. These
  are `isspace`, ASCII `upper`/`lower`, `split` on one character, `strip`, and the
  decimal literals `int()` accepts: an optional sign, single underscores, and
  whitespace around them. That whitespace is tab, newline, vertical tab, form
  feed, carriage return, space and the non-ASCII Unicode whitespace. It is not
  the separators U+001C..U+001F, which `isspace()` and `\s` accept but `int()`
  rejects.
- `ConsoleRates`: `ExchangeRates` as a class with the fields `days` and
  `currencies`. `set_days` and `set_currencies` are methods with loops.
  `rates_by_currency` and `get_rates` are functions of their inputs, and
  `query` is a method proved against the per-date function.
- `ChatServer`: `Server` as a class with the `clients` set, the name of each
  connection and a record `sent` of every `client.send`, in order. Each handler
  is a method. Beside them, ghost functions state what a session broadcasts:
  `React` for one message, `Session` for a whole connection and `RateLines`
  for the loop of `show_rates`. The handler methods are proved against those
  functions.

Some inputs are parameters:

- A date is a day number, and today is a parameter.
- The provider's answer for each date is a parameter `answer: Date -> Fetch`.
  It is an HTTP status with an optional decoded body, a refused connection, or
  another request failure.
- Whether a send to a client succeeds is a parameter `link`.
- A connection is a client id, and its generated name is a parameter.
- The inbound messages of a session and the way its read loop ends (a clean
  close or a broken connection) are parameters.

The model follows what the code does, also where that is probably not what
its authors meant:

- A date whose request fails gets `{date: {}}`, evidently meant as an empty
  entry. But `show_rates` then reads `dr[day]['EUR']`, which raises `KeyError`.
  That ends the command and the session (`FailedDateEndsCommand`).
- The day pattern `\s([1-9]|10)$` is searched anywhere in the suffix, and then
  `days[1:]` is passed to `int()`. So `"exchange rates 3"` raises `ValueError`
  and ends the session after the relay. It does not fall back to one day
  (`ExchangeWordBeforeCount`, `DayArgumentWordFails`).
- `$` also matches before a final newline.
- `query` gathers with `return_exceptions=True`. A date whose body is not JSON,
  whose payload raises `KeyError` in `rates_by_currency`, or whose request fails
  in another way has the exception object as its result. `show_rates` then
  calls `next(iter(dr))` on that object, which raises `TypeError` (line 59 of the
  server) and ends the session, although a failed fetch evidently was meant to
  give an empty entry (`RateLines`, whose exceptions are `TypeError` and
  `KeyError` only).
- `send_to_clients` stops at the first send that raises. A broadcast that
  skips a gone client was evidently meant, but the code is not best-effort.
- `unregister` uses `set.remove`, so it requires the connection to be
  registered. It is not idempotent, as a `discard` would be.

## Model

| member | source | states |
|---|---|---|
| `Strings.Upper` | console_rates.py:32 | `upper()` keeps the length, turns each small ASCII letter into its capital (code point minus 32), leaves no small letter and keeps every other character |
| `Strings.Lower` | chat_server.py:49 | `lower()` keeps the length, turns each ASCII capital into its small letter (code point plus 32), leaves no capital and keeps every other character |
| `Strings.Split` | console_rates.py:32 | `split(',')` gives one more piece than there are commas |
| `Strings.JoinSplit` | console_rates.py:32 | joining the pieces of `split(',')` with the separator gives back the string |
| `Strings.SplitPiecesAvoidSeparator` | console_rates.py:32 | no piece of `split(',')` contains a comma |
| `Strings.SplitWithoutSeparator` | console_rates.py:32 | a text without a comma splits into itself alone |
| `Strings.SplitAtFirst` | console_rates.py:32 | splitting at the first comma: the text before it, then the pieces of the rest |
| `Strings.ParseInt` | console_rates.py:20-23 | a text without a decimal digit makes `int()` raise |
| `Strings.ParseIntDecimal` | console_rates.py:21 | `int()` reads back any decimal numeral with any whitespace `int()` skips around it; the separators U+001C..U+001F are not part of that whitespace |
| `Strings.ParseIntRejectsStray` | console_rates.py:20-23 | a character that is not a digit, an underscore or a sign makes `int()` raise when it stands between two characters `int()` does not skip, or on the first of them |
| `ConsoleRates.ParseDays` | console_rates.py:20-25 | a day count is accepted exactly when `int()` gives a value in 1..10, and it is that value |
| `ConsoleRates.DateList` | console_rates.py:26-28 | `count` dates, and the last one is today |
| `ConsoleRates.DateListAt` | console_rates.py:26-28 | `n` dates; date `i` is `today - (n-1-i)` |
| `ConsoleRates.DateListOrdered` | console_rates.py:26-28 | the dates strictly increase, oldest first, and the last is today |
| `ConsoleRates.ValidCodes` | console_rates.py:31-36 | the kept codes are the tokens of the upper-cased, comma-split text that are supported, so always a subset of `CURRENCIES` |
| `ConsoleRates.ValidCodesBoth` | console_rates.py:30-36 | `"usd,eur"` and the default `"USD,EUR"` both give `{USD, EUR}` |
| `ConsoleRates.ValidCodesDropsUnknown` | console_rates.py:30-36 | `"usd,xyz"` gives `{USD}` |
| `ConsoleRates.ValidCodesNone` | console_rates.py:30-38 | `"xyz"` keeps no code |
| `ConsoleRates.FilterEntries` | console_rates.py:40-48 | every key of the comprehension's dict is a wanted currency |
| `ConsoleRates.RatesByCurrency` | console_rates.py:40-48 | `KeyError` exactly when the payload has no `exchangeRate`, or an entry has no currency, or a wanted entry lacks a sale or purchase rate; every key is a wanted currency |
| `ConsoleRates.FilterEntriesDefined` | console_rates.py:40-48 | the comprehension raises `KeyError` exactly when an entry has no currency, or a wanted entry lacks a sale or purchase rate |
| `ConsoleRates.FilterEntriesKeys` | console_rates.py:40-48 | the keys are exactly the wanted currencies that some entry names |
| `ConsoleRates.FilterEntriesLastWins` | console_rates.py:40-48 | each value copies the sale and purchase rates of the last entry naming its currency |
| `ConsoleRates.GetRates` | console_rates.py:50-61 | a single-key map `{date: rates}` exactly when the connection is refused, the status is 400 or more, or an ok body passes `rates_by_currency`; empty rates on a refused connection or an error status; for an ok body, the rates are what `rates_by_currency` returns; non-empty rates only from an ok body |
| `ConsoleRates.Fetches` | console_rates.py:63-70 | one result per date, and each map result is keyed by its own date alone |
| `ConsoleRates.QueryShape` | console_rates.py:63-70 | one result per day, result `i` keyed by date `i`, and a refused date gives empty rates without touching the others |
| `ConsoleRates.ExchangeRates.constructor` | console_rates.py:13-14 | the object starts with no days and no currencies |
| `ConsoleRates.ExchangeRates.Init` | console_rates.py:14-16 | `set_days`, then `set_currencies` only when the day count was accepted |
| `ConsoleRates.ExchangeRates.SetDays` | console_rates.py:18-28 | `days` reset to `[]`; on an accepted count, `days` is the list of dates ending today; otherwise `ValueError(DAYS_ERROR_MSG)` with `days` left empty |
| `ConsoleRates.ExchangeRates.SetCurrencies` | console_rates.py:30-38 | `currencies` is the set of supported tokens, and `ValueError` is raised exactly when that set is empty |
| `ConsoleRates.ExchangeRates.Query` | console_rates.py:63-70 | one result per element of `days`, in the same order, each the `get_rates` result for that date, so the results are `Fetches` over `days` |
| `ChatServer.Relay` | chat_server.py:48 | the relay is a text message |
| `ChatServer.RelayText` | chat_server.py:48 | the relay's text is the sender's name, then `": "`, then the message |
| `ChatServer.IsExchange` | chat_server.py:49 | the command is detected exactly when the first eight characters spell `exchange` in any mix of cases, longer words included |
| `ChatServer.HasDayArgumentIsSearch` | chat_server.py:55 | checking the end of the suffix finds exactly the places where the pattern of the search can match |
| `ChatServer.DayArgument` | chat_server.py:55 | `days[1:]` when the pattern `\s([1-9]|10)$` matches somewhere in the suffix, `"1"` otherwise |
| `ChatServer.DayArgumentCount` | chat_server.py:55 | when everything after the first character, up to and including the matched whitespace, is whitespace `int()` skips, the day count is the number at the end |
| `ChatServer.DayArgumentWordFails` | chat_server.py:55 | when something `int()` does not skip stands there (a word, or one of U+001C..U+001F), `int(days[1:])` fails |
| `ChatServer.DayArgumentAccepted` | chat_server.py:55 | with a match, the day count is accepted exactly when that stretch is all whitespace `int()` skips |
| `ChatServer.DayArgumentDefault` | chat_server.py:55 | without a match the argument is `"1"`, one day |
| `ChatServer.DayArgumentExamples` | chat_server.py:55 | `" 10"` gives `"10"`, `" 3"` gives `"3"`, `"  3"` gives `" 3"`, and `" 11"`, `""`, `"x"` give `"1"` |
| `ChatServer.ExchangeThreeDays` | chat_server.py:49-56 | `"exchange 3"` is the command and asks for three days |
| `ChatServer.ExchangeWordBeforeCount` | chat_server.py:47-56 | `"exchange rates 3"` broadcasts its relay and then ends with `ValueError` |
| `ChatServer.RateLines` | chat_server.py:58-62 | at most one line per result; complete when nothing is raised; only `TypeError` or `KeyError` can stop it |
| `ChatServer.RateLinesDays` | chat_server.py:58-61 | line `i` is a rate line for the day that is the key of result `i` |
| `ChatServer.RateLinesStop` | chat_server.py:58-62 | the first result lacking EUR or USD ends the loop with an exception, and no line from it or after it goes out |
| `ChatServer.RateLinesAll` | chat_server.py:58-62 | when every result is its date's map with EUR and USD, nothing is raised and line `i` holds the EUR and USD rates of result `i` |
| `ChatServer.QueryShapes` | chat_server.py:56-57 | every result of the command's query is an exception or a single-key map |
| `ChatServer.ShowRatesPlan` | chat_server.py:54-57 | a rejected day count raises `ValueError` before anything is sent |
| `ChatServer.ShowRatesPlanLines` | chat_server.py:54-62 | for an accepted count of `n` days: at most `n` lines; line `i` reports day `today - (n-1-i)`, oldest first; all `n` unless something is raised, and never `ValueError` |
| `ChatServer.FailedFetchUnreportable` | console_rates.py:50-61 | the result for a refused date, or one answered with an error status, has no EUR or USD rates to report |
| `ChatServer.FailedDateEndsCommand` | chat_server.py:54-62 | a refused date or error status raises, after at most the lines of the earlier dates |
| `ChatServer.ReportsEveryDay` | chat_server.py:54-62 | when every date's payload holds EUR and USD, one line per day goes out, oldest first, ending today |
| `ChatServer.React` | chat_server.py:47-52 | the relay is the first line of every message; more lines or an exception only for the command |
| `ChatServer.Session` | chat_server.py:46-52 | a session never ends with `ConnectionClosedOK`, and its first line is the relay of its first message |
| `ChatServer.PlainChatRelaysOnly` | chat_server.py:46-52 | chat without the command is relayed once per message, in order, and nothing else is broadcast |
| `ChatServer.Server.constructor` | chat_server.py:20-21 | the server starts with no clients and has sent nothing |
| `ChatServer.Server.Register` | chat_server.py:24-27 | `clients` becomes old ∪ {ws}, and the connection's name is set |
| `ChatServer.Server.Unregister` | chat_server.py:29-31 | `clients` becomes old minus ws, with ws required to be present |
| `ChatServer.BroadcastReachesAll` | chat_server.py:33-35 | one send per client to distinct clients reaches every client |
| `ChatServer.Server.SendToClients` | chat_server.py:33-35 | each send goes to a distinct client; nothing is raised exactly when every client accepts, and then there is exactly one send per client; otherwise the exception of a failing client, after sends that all went to accepting clients |
| `ChatServer.Server.SendRateLines` | chat_server.py:58-62 | with every client accepting, broadcasts the lines of `RateLines` in order and raises its exception; with a failing client, raises whenever `RateLines` has a line to send |
| `ChatServer.Server.ShowRates` | chat_server.py:54-62 | with every client accepting, broadcasts the lines of `ShowRatesPlan` and raises its exception, `ValueError` for a rejected day count; the object built from `"USD,EUR"` queries `DEFAULT_CODES`, that is `{USD, EUR}` |
| `ChatServer.Server.HandleMessage` | chat_server.py:48-52 | only appends to the record of sends; with every client accepting, the relay and then for the command the rate lines, with the exception `React` gives; with a failing client, that client's exception after the relay reached only some clients |
| `ChatServer.Server.Distribute` | chat_server.py:46-52 | only appends to the record of sends; with every client accepting, the broadcasts and the exception of `Session`; with no inbound message, nothing is sent and the exception of `Session`; with a failing client, the first message raises the exception of a failing client, and nothing is sent but its relay, to some of the clients |
| `ChatServer.Server.WsHandler` | chat_server.py:37-44 | `clients` ends as old minus ws on every path, so it is unchanged when ws was not registered before; `ConnectionClosedOK` is never raised; with every client accepting, the broadcasts and exception are those of `Session`; without inbound messages nothing is sent; with a failing client, only the first relay goes out, to some clients, and the session ends quietly when every failing client closed cleanly (`ConnectionClosedOK` swallowed), or with `ConnectionClosedError` when every failing client broke |

## Left out

- One `link`, one `answer` and one `today` serve a whole session. A peer whose
  connection closes after the k-th message, a date whose fetch comes out
  differently for two commands of one session, and a session that runs past
  midnight are not modelled. In the source such a peer makes a later relay
  raise (line 35 of the server); a clean close is then swallowed by
  `except ConnectionClosedOK` (line 41), which ends the sender's own session
  quietly.
- Inbound messages are text (`inbound: seq<string>`). Binary frames are not
  modelled: for a `bytes` message the relay would read `name: b'...'`, and then
  `message.lower().startswith("exchange")` raises `TypeError` (line 49 of the
  server), which ends the session.

- Network and websocket I/O are out of scope. This covers `serve`, async
  iteration over the socket, aiohttp sessions, `response.json()` and
  `asyncio.gather`'s concurrency. Each is replaced by the parameters described
  above. A body that is not JSON is one `RequestError` outcome.
- Several sessions running at once are not modelled, nor is the set of clients
  changing while `send_to_clients` iterates over it. Each method runs alone.
- The order in which a Python `set` iterates is not modelled. `SendToClients`
  picks any order.
- The order in which a dict iterates is not needed: every map `get_rates`
  returns has one key.
- `names.get_full_name` is a foreign call. The name is a parameter.
- `datetime.today()` is not modelled; today is a parameter. The `DD.MM.YYYY`
  formatting is abstracted to day numbers.
- The text of `RATE_STR` is not rendered. A rate line is the value
  `RateLine(day, eur, usd)`, and the rendering of dicts and floats is not
  modelled.
- Rates are reals that are only copied. Float formatting is not modelled.
- The URL built from `HTTP_STR` is not modelled, since it only feeds the
  request.
- The append to `exchange.log`, `logging` and `print` are file and console
  output. The text of the "Valid currencies are" error is not kept;
  `CurrenciesError` stands for it.
- The argparse entry point of `console_rates.py` (lines 73-87), `main` and the
  Windows event-loop policy are entry-point plumbing.
- `str.upper` and `str.lower` are modelled on ASCII letters only. Python also
  maps other letters, for example `'ſ'.upper()` is `'S'`.
- `int()` is modelled on ASCII digits only. Python also accepts other Unicode
  decimal digits.
- The websockets library raises `ConnectionClosedOK` or `ConnectionClosedError`
  from `send` when a peer is gone. The model does not model why; `link` says
  which one each client raises.
